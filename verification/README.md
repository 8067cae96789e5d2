# Models and proofs for diy-port

diy-port stands in for a camera's AI port: it finds objects in a camera's frames, follows them, and
tells a Protect console about each camera event in `enter`, `moving` and `leave` messages. This
project models the logic of that program in Dafny and proves what it is for.

`dafny verify dfyconfig.toml` checks everything.

## The camera event engine

One analysed frame is one tick over a camera's live tracks, its recently closed tracks, at most one
open camera event with the tracks that have finished, and the messages sent.

- `Tracks`, `ScoreGate`, `Geometry`: detections, tracks, and what one frame does to one track.
- `Matching`, `Norfair`, `Faces`, `Pipeline`: which detection belongs to which track.
- `Engine`: a tick as a function of the state before it, phase by phase; each phase is a fold over the
  live table in its order.
- `TrackObjects`, `Matchers`, `Device`: the same tick as the program performs it, on objects changed in
  place and shared by reference between the live table, the recent list and the finished list. Every
  loop is proved to be its fold, and `Device.Tick` to be `Engine.Tick`.
- `EngineInvariant`: what holds inside a tick and after it. `EventTrace`, `EventFacts`, `Updates`, `ZoneWaiting`,
  `LeaveFacts`, `TrackLife`, `TrackHistory`, `TrackScores`, `Backdating`, `BoundedClosing`: what follows for
  every run, from the first frame on. `LeaveExample` is one run, followed frame by frame.

A run (`EventTrace.IsRun`) is any sequence of frames whose stamps never go back. A frame may hold any
detections with any flags; only repeated boxes and Norfair's associations must carry the type of what
they belong to. Settings a console can change are part of each frame's input.

## The other parts

- `Jpeg`: splitting an MJPEG byte stream into frames, with the marker segments of section B.1.1.4 of
  ITU-T T.81.
- `Flv`, `Bytes`: rewriting an FLV stream for the console, with the tag layout of the Adobe Flash Video
  File Format Specification 10.1, Annex E.4.1. `PushManager`: which pushes run.
- `Regions`, `Suppression`, `Consolidation`: where the detector looks and how its detections merge.
- `PlateVote`, `Zones`, `HostStats`: plate reads, zone membership, CPU by process tree.
- `Lists`, `Reals`, `Wrappers`: small shared facts.

Where a promise is stronger than the code, the code is kept, and both an input on which the promise fails
and the exact condition under which it holds are proved.

- A leave can name somebody who never took part (`LeaveExample.OutsiderIsNamed`); those are exactly the
  ones who closed unparked and outside every zone while the event was open (`LeaveFacts.LeaveNamesExactly`).
- A region need not hold its cluster, and then a box can be in none (`Regions.WideClusterSticksOut`).
  `ClusterRegionsHoldIff`, `ClusterHeldIff` and `RegionHoldsIff` say when a region holds its own boxes;
  `RegionsCover` says what that means for every box, and `OtherRegionCovers` that another cluster's region can
  make up for it.
- An image can come out cut (`Jpeg.CutAtItsFirstEnd`); it does exactly if what follows its first scan header
  holds an end marker (`Jpeg.ImageComesOut`), which byte-stuffed data does not (`Jpeg.OneScanComesOut`).
- A face read can lose its person's face track to a later read (`Faces.SharedFaceLosesARead`);
  `Faces.ReadEndsOnItsFace` says exactly when, and it does not while no two people share one
  (`Faces.EveryReadEndsOnItsFace`).
- A rewritten stream need not give its source back (`Flv.OwnSyncIsLost`); it does exactly if no tag looks
  inserted (`Flv.RewriteIsInvertible`).
- A FourCC that spells `h264` passes the codec check (`Flv.SpelledH264IsPushed`), and no other does
  (`Flv.EnhancedPassesIfSpelled`).
- A new audio flag does not restart a push (`PushManager.SilentCameraKeepsAudio`); a push runs with another
  flag than its source's exactly as `PushManager.AudioGoesStale` says.

## Model

| member | source | states |
|---|---|---|
| EventTrace.ActiveBelongToTheEvent | diyport/avclient.py:2948-3059 | after every tick of every run each active track takes part in the open event under its id and is not in its finished list, an open event has someone active, and a confirmed moving track that has not been in a zone waits for one; so the branch for an event without tracks is never reached |
| EventTrace.MessagesWellFormed | diyport/avclient.py:3002-3059 | the messages of every run are read by a listener that knows only enter, moving* and leave: one event open at a time, under ids that only rise, times that never go back, back-dated messages strictly before the opening frame and updates a report interval apart; the listener is inside an event exactly when one is open |
| EventTrace.NobodyIsLost | diyport/avclient.py:3018-3050 | over every run a leave names everyone any earlier message of its event named, each once |
| EventTrace.ListsStayDisjoint | diyport/avclient.py:2862-2875 | after every tick of every run nobody is both live and recently closed, a finished track that is live is parked, no list holds anyone twice, and ids still to be given out are new |
| EventTrace.RunKeeps | diyport/avclient.py:2722-3068 | every state of every run satisfies the engine invariant, and what was sent so far is well formed and loses nobody |
| EventTrace.OpenEventHeard | diyport/avclient.py:3008-3017 | opening an event is heard as an enter, back-dated or not, under a new id, then nothing earlier |
| EventTrace.BackfillHeard | diyport/avclient.py:2209-2232 | back-dated messages start with the enter, rise in time by at least a report interval, and all precede the opening frame |
| EventFacts.ActiveTracksAreInTheLeave | diyport/avclient.py:3018-3050 | whoever is active at some point of a run belongs to an open event, and later that event is still open or its leave names the track, exactly once, through any closing, resuming, parking and waking in between |
| EventFacts.UpdatesNameOnlyActive | diyport/avclient.py:3003-3058 | an enter or moving sent on a tick names only tracks that are in view, unparked, confirmed and have been in a zone, each vouched for by its scores, its parent, or having been there at the start |
| Updates.UpdatesAreExact | diyport/avclient.py:3003-3058 | in every run, while an event goes on a tick sends an update if and only if one is due and an active track was seen since the last one, and it shows exactly those tracks, each once, with its current box and score; the tick that opens an event ends with a message showing exactly the active tracks, likewise |
| EventFacts.OpenEventsAreYoung | diyport/avclient.py:3022-3032 | after any tick that did not just open it, an open event is younger than its time limit |
| EngineInvariant.TickKeepsInv | diyport/avclient.py:2722-3068 | every tick keeps the invariant: ids belong to tracks, live, recent and finished lists are disjoint as promised, and everyone who could take part is joining, waits for a zone, or takes part already |
| EngineInvariant.GatherIsSane | diyport/avclient.py:2744-3000 | none of the phases up to the zone check loses anybody who takes part |
| EngineInvariant.HoldForZonesSettles | diyport/avclient.py:1758-1787 | after the zone check everyone joining has been in a zone and nobody waiting has |
| EngineInvariant.LifecycleInv | diyport/avclient.py:3002-3059 | opening, updating or closing the event restores what holds between ticks |
| EngineInvariant.InitialInv | diyport/avclient.py:2748-2752 | a camera before its first frame satisfies the invariant |
| EngineInvariant.MissedExactly | diyport/avclient.py:2840-2875 | exactly when a missed track leaves the live table (its tolerance is used up and, if it is confirmed, no person keeps it and it does not wait for a model answer), enters the recent list (if it is confirmed as well) and enters the finished list (if it is unparked and an event is open as well), and that nobody else is touched |
| ZoneWaiting.WaitersAreOutside | diyport/avclient.py:1763-1772 | after every tick of every run a live track that is confirmed and waits has not been in a zone: whoever enters one joins on that tick |
| ZoneWaiting.ZonedFinishersCarryTheEvent | diyport/avclient.py:2862-2875 | in every run a track that closes into the finished list carries the open event's id if it has been in a zone |
| LeaveFacts.LeaveNamesExactly | diyport/avclient.py:2869-3050 | every leave of every run is sent on a tick that found its event open and names, each once and each confirmed, exactly those who took part, those active on that tick, and those who closed confirmed and unparked without ever having been in a zone while it was open and did not wake since; so it names somebody who never took part if and only if there was such a closing |
| LeaveFacts.FinishedAtCheck | diyport/avclient.py:2791-3000 | through a whole tick up to its zone check, a track that does not take part is in the finished list exactly if it closed outside every zone on this tick, or was there and was not woken |
| LeaveExample.OutsiderIsNamed | diyport/avclient.py:2870-2875 | under settings the program can have, a run of five frames whose leave names an animal that never took part: it closed, never having been in a zone, while the event of a person was open |
| BoundedClosing.QuietCameraCloses | diyport/avclient.py:2840-2875 | from any reachable state, one more quiet tick than the longer of the two miss tolerances leaves no tracks and no open event, although faces outlive their own tolerance |
| BoundedClosing.MissesGrow | diyport/avclient.py:2841-2861 | after k quiet ticks every live track has missed at least k frames, and past both tolerances only faces can be left |
| TrackLife.WakesOnlyByMoving | diyport/avclient.py:2803-2829 | over every run a parked track unparks only on a frame whose box left its spot, or after enough consecutive frames all shifted at about the same size, and never while its pixels are unchanged |
| TrackLife.NorfairWakesOnlyByShift | diyport/avclient.py:2589-2631 | under Norfair a parked track that is not a face and is given no repeated box can only be woken by the sustained shift |
| TrackLife.CounterIsBacked | diyport/avclient.py:2526-2537 | the shift counter of a parked track counts the latest consecutive shifted frames it was given |
| TrackLife.MatchedParked | diyport/avclient.py:2803-2829 | how one matched frame leaves a parked track: parked at the same spot one shift further, restarted, or woken for one of the two reasons |
| TrackScores.NamedTracksEarnedIt | diyport/avclient.py:2922-2978 | over every run each track of a kind that confirms by its own scores and is named in an enter or moving was created in the startup window, or the scores it was given in that run passed the gate at some frame, at least half of the last of them at or above its threshold |
| TrackScores.GateIsOfOwnScores | diyport/avclient.py:320-333 | in every state of every run a track's gate is that of the scores it was given: its first detection's, then for each tick it was live its detection's or 0 for a miss |
| TrackScores.NewTracksAreDetections | diyport/avclient.py:2912-2944 | a track that is new after a tick has the type, box and score of one of the frame's detections and only that score in its gate |
| Backdating.BackdatedMessagesShowThePast | diyport/avclient.py:2209-2228 | every back-dated message of every run shows exactly the tracks that start taking part on its tick and have a remembered frame at or before its time, each once, with the box and score of the latest such frame; and every remembered frame is one of an earlier (or this) tick with the box and score the track had on it |
| Backdating.RememberedWereThere | diyport/avclient.py:2948-2954 | in every state of every run each remembered frame carries the stamp of some tick and the box and score the track had after it |
| Backdating.LatestSeenIsLatest | diyport/avclient.py:2223-2226 | the remembered frame a back-dated message shows is the last one at or before its time |
| TrackHistory.RunGood | diyport/avclient.py:2948-2954 | in every state of every run the remembered frames of each track are in time order and not in the future, and a face's link names a person |
| ScoreGate.AddScore | diyport/avclient.py:320-333 | the in-place update of one frame's score computes the specified gate |
| ScoreGate.CounterIsBestSuffix | diyport/avclient.py:328 | the counter equals the largest suffix sum of hits (+1) and misses (-1) |
| ScoreGate.InitializedIffBusyWindow | diyport/avclient.py:328-330 | a track is initialised exactly if some contiguous window of its scores had hits minus misses above the limit |
| ScoreGate.TruePositiveIffPassed | diyport/avclient.py:331-333 | a track is a true positive exactly if at some frame it was initialised, had its hits, and the median of its last ten scores reached the threshold |
| ScoreGate.MedianMeansHalf | diyport/avclient.py:333 | a median at or above a threshold means at least half of the scores are |
| ScoreGate.TruePositiveHadHalf | diyport/avclient.py:331-333 | a true positive once had at least half of its last (up to ten) scores at or above the threshold |
| Matching.Builtin | diyport/avclient.py:2540-2569 | the built-in matcher leaves an injective, type-preserving map and a duplicate-free disjoint unclaimed list, and loses no detection |
| Matching.BuiltinLeavesNoOverlap | diyport/avclient.py:2548-2560 | afterwards no unmatched track overlaps an unclaimed box of its type by more than the threshold |
| Matching.BestOverlapIsBest | diyport/avclient.py:2549-2557 | the overlap pass takes a detection no unclaimed one overlaps better |
| Norfair.BestOnSpotIsBest | diyport/avclient.py:2612-2620 | a parked track takes the box covering its spot at least as well as any unclaimed one and better than any after it, and none only if none covers it |
| Engine.FindResumeIsBest | diyport/avclient.py:2123-2143 | a detection continues the recently closed track it overlaps at least as well as any it could continue and better than any closed later, and opens a new one only if it can continue none |
| Matching.NearestIsNearest | diyport/avclient.py:1672-1681 | the nearest rule takes a detection no eligible one is nearer than |
| Norfair.Match | diyport/avclient.py:2572-2633 | Norfair's associations with the rules around them keep the same map sound, lose no detection, keep ids of one type, and give a parked track only its own repeated box or one on its spot |
| Faces.Pass | diyport/avclient.py:2313-2353 | re-pointing faces keeps the map sound; exactly the dropped reads are lost, kept reads overlap pairwise below 0.5 and no two of one owner survive; each track ends on the last surviving read that belongs to a person with that face track, and without one keeps the match it came with exactly if that was neither dropped nor given to a face track |
| Faces.ReadEndsOnItsFace | diyport/avclient.py:2341-2353 | a surviving read of a person with a live face track ends on that track exactly if no later surviving read is for the same track |
| Faces.SharedFaceLosesARead | diyport/avclient.py:2341-2353 | two people with one face track, and a read of each: both reads survive, and the first one loses the track to the second |
| Faces.EveryReadEndsOnItsFace | diyport/avclient.py:2341-2353 | while no two people in view share a face track every surviving read of a person with a live one ends on it |
| Faces.DroppedAreSecondReads | diyport/avclient.py:2325-2340 | a read is dropped only as the same face again or as a second face of one person |
| Faces.PassLeavesOthers | diyport/avclient.py:2323-2353 | tracks and detections that are not faces are matched as before |
| Pipeline.MatchIsSound | diyport/avclient.py:2765-2789 | either matcher, the face pass and the clipped-box filter together leave an injective, type-preserving map and a duplicate-free disjoint unclaimed list |
| Pipeline.OnlySecondReadsAndClippedAreLost | diyport/avclient.py:2777-2789 | every detection is matched or unclaimed afterwards unless it was cut off by its crop or a second read of a face |
| Pipeline.SurvivingReadsAreSeparate | diyport/avclient.py:2782-2789 | two surviving face reads overlap below 0.5 and belong to different people |
| Pipeline.NorfairKeepsParkedOnSpot | diyport/avclient.py:2589-2631 | through the whole pipeline a parked non-face keeps to its own repeated box or one overlapping its spot by the threshold |
| Matchers.NearestDetection | diyport/avclient.py:1662-1681 | the loop computes the specified nearest detection |
| Matchers.BuiltinMatch | diyport/avclient.py:2540-2569 | the two passes, with their dict and list changed in place, compute the specified matcher |
| Matchers.BestParked | diyport/avclient.py:2612-2620 | the loop computes the box that Norfair.BestOnSpotIsBest characterises |
| Matchers.SeedMatch | diyport/avclient.py:2590-2598 | repeated boxes of parked tracks are claimed first, once each |
| Matchers.AssociationMatch | diyport/avclient.py:2599-2611 | the loop over Norfair's associations claims, or makes an id let go, as specified |
| Matchers.LeftoverMatch | diyport/avclient.py:2613-2631 | the loop over the tracks Norfair left computes the specified claims |
| Matchers.NorfairMatch | diyport/avclient.py:2572-2633 | the three loops together compute the specified matcher |
| Matchers.PlaceRead | diyport/avclient.py:2324-2353 | one face read is dropped, left, or pointed at its person's face track as specified |
| Matchers.MatchFaces | diyport/avclient.py:2313-2353 | the pass over the face reads computes the specified claims |
| Matchers.Match | diyport/avclient.py:2777-2789 | matcher, face pass and clipped-box filter compute the specified result |
| TrackObjects.TrackObject.RecordScore | diyport/avclient.py:320-333 | its gate in place |
| TrackObjects.TrackObject.MovedSince | diyport/avclient.py:2526-2537 | the moved test answers and counts as specified |
| TrackObjects.TrackObject.Take | diyport/avclient.py:2792-2802 | a matched track takes its detection as specified |
| Devices.Device.constructor | diyport/avclient.py:2748-2752 | a new device is the initial state |
| Devices.Device.Begin | diyport/avclient.py:2758-2764 | the recent list is filtered and the startup window started as specified |
| Devices.Device.Matched | diyport/avclient.py:2792-2834 | a matched track's whole update in place, with the finished list and the joining list, equals the specified step |
| Devices.Device.Missed | diyport/avclient.py:2840-2875 | a missed track is counted, dropped, held or closed in place as specified, every early exit included |
| Devices.Device.FollowAll | diyport/avclient.py:2791-2875 | the loop over the live tracks, which shrinks the table it runs over, is the specified fold |
| Devices.Device.InsideParked | diyport/avclient.py:2106-2120 | true exactly if the box lies inside a parked track of its type |
| Devices.Device.FindResume | diyport/avclient.py:2123-2143 | the loop finds the recently closed track that Engine.FindResumeIsBest characterises |
| Devices.Device.Resume | diyport/avclient.py:2887-2911 | a resumed track is live again, back in its event or parked, as specified; the object is the same one |
| Devices.Device.Open | diyport/avclient.py:2912-2944 | a new track object enters under a fresh id as specified, all other objects untouched |
| Devices.Device.AdmitAll | diyport/avclient.py:2879-2944 | the loop over the unclaimed detections is the specified fold |
| Devices.Device.LinkAll | diyport/avclient.py:2356-2377 | faces and people are linked in place as specified |
| Devices.Device.RememberAll | diyport/avclient.py:2949-2954 | unconfirmed tracks seen now remember this frame |
| Devices.Device.ConfirmAll | diyport/avclient.py:2956-2968 | tracks are confirmed and join as specified |
| Devices.Device.ParkAll | diyport/avclient.py:2970-2983 | still vehicles park, and finish if they took part |
| Devices.Device.AccompanyAll | diyport/avclient.py:2985-2997 | faces and plates are confirmed with their parents |
| Devices.Device.HoldForZones | diyport/avclient.py:1758-1787 | waiting tracks are released and joining ones held as specified |
| Devices.Device.Backfill | diyport/avclient.py:2209-2232 | the loop over the stamps computes the specified back-dated messages |
| Devices.Device.OpenEvent | diyport/avclient.py:3008-3017 | the event is opened, the history sent and forgotten, and the first message sent as specified |
| Devices.Device.CloseEvent | diyport/avclient.py:3024-3050 | the leave is sent, those in view parked and the event closed as specified |
| Devices.Device.ReportEvent | diyport/avclient.py:3051-3059 | the batched update is sent as specified |
| Devices.Device.Lifecycle | diyport/avclient.py:3002-3059 | the event part of a tick is the specified step |
| Devices.Device.Tick | diyport/avclient.py:2744-3059 | one frame on the object, all tracks shared by reference, equals the specified tick, and the invariant holds again |
| Jpeg.ChunksDoNotMatter | diyport/avclient.py:546-569 | however a byte stream is cut, frames and remaining buffer are those of the whole stream |
| Jpeg.DrainInSteps | diyport/avclient.py:554-569 | taking frames, then more bytes, then frames again gives what taking them all at once gives |
| Jpeg.LookAtImage | diyport/avclient.py:526-543 | the end found for an encoded image is the first FF D9 behind its scan header, even if a table before it holds one |
| Jpeg.ImageComesOut | diyport/avclient.py:546-569 | an image behind junk is given out whole exactly if its scan holds no FF D9 of its own |
| Jpeg.CutAtItsFirstEnd | diyport/avclient.py:536-541 | a decodable image of two scans, with FF D9 among the quantizers between them, comes out cut there and its rest is dropped |
| Jpeg.OneScanComesOut | diyport/avclient.py:526-541 | an image of one scan, whose data is byte-stuffed, always comes out whole |
| Jpeg.UnfinishedGivesNothing | diyport/avclient.py:543-568 | a proper prefix of an image gives no frame |
| Jpeg.SplitsIntoItsImages | diyport/avclient.py:546-569 | a stream of images with start-marker-free junk between them, cut anywhere, is split back into exactly those images, ignoring an unfinished one at its end |
| Jpeg.JpegEnd | diyport/avclient.py:526-543 | the loop finds the specified end |
| Jpeg.TakeFrames | diyport/avclient.py:554-569 | the inner loop over the buffer computes the specified frames and rest |
| Jpeg.JpegFrames | diyport/avclient.py:546-569 | the generator yields the specified frames for the chunks up to the first empty one |
| PlateVote.EquallyManyMarked | diyport/avclient.py:1704-1713 | as many characters are marked on one side as on the other |
| PlateVote.SimilarityBounds | diyport/avclient.py:1697-1723 | similarity lies in [0, 1] and is 1 exactly for equal texts |
| PlateVote.ClustersPartition | diyport/avclient.py:1737-1744 | the clusters hold exactly the reads, and none is empty |
| PlateVote.NoneIsBigger | diyport/avclient.py:1745 | no cluster is bigger than the chosen one |
| PlateVote.NoLengthIsBigger | diyport/avclient.py:1746-1747 | no length has more reads in the chosen cluster than the chosen one |
| PlateVote.NoneWeighsMore | diyport/avclient.py:1750-1754 | no character read at a place has more confidence behind it than the voted one |
| PlateVote.MajorityWins | diyport/avclient.py:1748-1754 | a text with more than half of the voters' confidence wins the character vote |
| PlateVote.MajorityIsThePlate | diyport/avclient.py:1733-1755 | so for every list of reads with confidences not negative that text is the plate |
| PlateVote.Pair | diyport/avclient.py:1704-1713 | the nested loops compute the specified pairing |
| PlateVote.GroupReads | diyport/avclient.py:1737-1744 | the clustering loops compute the specified clusters |
| PlateVote.PlateRep | diyport/avclient.py:1733-1755 | the loops compute the specified plate, its mean confidence and its voters |
| Zones.PointInPolygon | diyport/avclient.py:825-835 | the loop computes whether an odd number of edges is crossed |
| Zones.StartDoesNotMatter | diyport/avclient.py:825-835 | membership does not depend on the corner a polygon starts at |
| Zones.DirectionDoesNotMatter | diyport/avclient.py:825-835 | nor on the direction it is walked in |
| Zones.StraddlingIsToldByTheEnds | diyport/avclient.py:832 | a path straddles a height an odd number of times exactly if its ends do, so a closed polygon an even number |
| Zones.OutsideTheBoxIsOutside | diyport/avclient.py:825-835 | a point outside the bounding box is in no polygon, degenerate ones included |
| Zones.ChordSplits | diyport/avclient.py:825-835 | cut along a chord between two corners, a point is in exactly one piece if and only if it was in the whole |
| Regions.RegionIsSquareInFrame | diyport/regions.py:53-63 | for any box at all its region is a square inside the frame |
| Regions.RegionHoldsIff | diyport/regions.py:53-63 | for any minimum size and multiplier, a box in the frame is inside its region exactly if both ways it is moved to an edge or half of what is to spare covers the rounding |
| Regions.RegionHolds | diyport/regions.py:53-63 | so it is inside with two pixels to spare, and outside if it is longer than the side |
| Regions.WholeBoxHeldIff | diyport/regions.py:53-63 | a box on whole pixels is inside its region exactly if its longest side is not longer than the region's |
| Regions.OnlyTheFrameLimits | diyport/regions.py:56-58 | with the program's multipliers and minimum sizes that side is too short only if the frame's short side (rounded down to a multiple of 4) is |
| Regions.TooLongSticksOut | diyport/regions.py:58 | a box longer than that side is never inside its region |
| Regions.ClusterHeldIff | diyport/regions.py:76-80 | a cluster's region holds all of its boxes exactly if there is room for its extent both ways |
| Regions.ClusterRegionHoldsMembers | diyport/regions.py:76-80 | it does if the extent with two pixels to spare fits the short side, and does not if the extent alone does not fit |
| Regions.WholeClusterHeldIff | diyport/regions.py:76-80 | on whole pixels it does exactly if the longest extent fits the short side |
| Regions.ClusterRegionsHoldIff | diyport/regions.py:76-80 | so on whole pixels the documented "holding every box of a cluster" is kept for all clusters exactly if no cluster is longer than the short side |
| Regions.RegionsCover | diyport/regions.py:107-112 | every box is in some region if no cluster (with two pixels to spare, or on whole pixels without) is longer than the short side, and only if no box is |
| Regions.OtherRegionCovers | diyport/regions.py:107-112 | on four boxes, for any sqrt, the program returns two regions that cover every box although one cluster is longer than the short side and sticks out of its own region: another cluster's region holds what sticks out |
| Regions.WideClusterSticksOut | diyport/regions.py:107-112 | the failing input: for two small boxes in a wide, low frame the program's loops return one region, which holds neither |
| Regions.Grow | diyport/regions.py:86-103 | the cluster of a seed is the seed and exactly the unused boxes that lie in its boundary and, at their turn, do not leave a box under 5% of a region above the minimum; in index order |
| Regions.ClusterCandidates | diyport/regions.py:83-105 | each cluster is that of the first box in none before it, among the boxes in none before it, until every box is in exactly one |
| Regions.GroupingIsUnique | diyport/regions.py:83-105 | that leaves no choice: any two such groupings of the same boxes are the same |
| Regions.RegionsFor | diyport/regions.py:107-112 | one region per cluster of that grouping, in its order; none only for no boxes |
| Regions.StartupRegions | diyport/regions.py:115-126 | the squares of the first look, as many as are needed, in order |
| Regions.StartupCovers | diyport/regions.py:115-126 | they start at 0, end at the long edge and leave no gap despite half-even rounding, and miss at most 3 pixels on the short side |
| Suppression.Nms | diyport/regions.py:139-156 | the shrinking loop computes the specified list |
| Suppression.KeepContract | diyport/regions.py:139-156 | no kept box is overlapped by one kept before it, and each other box is overlapped by a kept one of no lower score |
| Suppression.KeepEachContract | diyport/regions.py:159-172 | run per label it invents nothing, loses no label, keeps boxes of a label apart, and accounts for each suppressed box |
| Consolidation.MergeContract | diyport/regions.py:174-194 | merging keeps each label, leaves no box mostly inside a larger comparable survivor, and drops a box only for a selected one no smaller that holds most of it |
| Consolidation.ReduceDetections | diyport/regions.py:159-194 | both halves together: nothing invented, no label lost, survivors apart and none inside another, every dropped box accounted for |
| Consolidation.NmsPerClass | diyport/detectors/postprocess.py:105-141 | the detectors' suppression keeps the same contract with its own overlap, a zero denominator suppressing |
| Flv.TagRoundTrip | diyport/onvif_push.py:56-61 | a tag header reads back to its type, its signed 32-bit timestamp and its size, the size exactly if 24 bits hold it; it is refused exactly if timestamp or length do not fit |
| Flv.TrailerRoundTrip | diyport/onvif_push.py:68-74 | a trailer reads back to its timescale and to the elapsed time within one tick, and fits exactly below 2^64 ticks |
| Flv.RewriteIsInvertible | diyport/onvif_push.py:129-169 | taking out the inserted script tags and the 16 bytes behind each tag gives the source's tags back byte for byte exactly if none of them looks inserted itself |
| Flv.OwnSyncIsLost | diyport/onvif_push.py:129-169 | a source whose own script tag looks inserted: the rewrite ends normally and stripping loses the tag |
| Flv.StripCopy | diyport/onvif_push.py:144-169 | in general it gives back the source's tags without those that look inserted |
| Flv.RewriteEndsAs | diyport/onvif_push.py:129-169 | with a clock that never goes back, how a rewrite ends is told by the source alone: not FLV, the first complete video tag that is not H.264, or done |
| Flv.EnhancedPassesIfSpelled | diyport/onvif_push.py:113-115 | a complete video tag with an enhanced header passes exactly if its four code bytes spell h264; those of H.264 itself, avc1, do not |
| Flv.SpelledH264IsPushed | diyport/onvif_push.py:163-166 | a stream with such a tag, which is rewritten to its end |
| Flv.SyncsAreWellSpaced | diyport/onvif_push.py:140-156 | syncs come at least five seconds apart, the first five seconds after the start |
| Flv.ReadExact | diyport/onvif_push.py:119-126 | reads n bytes or what is left, however the source cuts them |
| Flv.CopyTag | diyport/onvif_push.py:145-169 | one round of the loop on the stream computes the specified step |
| Flv.CopyTags | diyport/onvif_push.py:144-169 | the loop with its clock variables computes the specified copy |
| Flv.RewriteFlv | diyport/onvif_push.py:129-169 | on any source and any chunking the rewrite is the specified one |
| PushManager.Manager.Sync | diyport/onvif_push.py:387-403 | afterwards exactly the wanted pushes of every device run; other devices are untouched, a push that is still right is not restarted, and one that is started has its source's audio flag |
| PushManager.Manager.StopIfStale | diyport/onvif_push.py:391-395 | a push is stopped and removed exactly if it is not what should run under its key |
| PushManager.Manager.StopStale | diyport/onvif_push.py:391-395 | of the device's pushes exactly the right ones stay, and those removed are stopped |
| PushManager.Manager.StartMissing | diyport/onvif_push.py:396-403 | what is missing is started unless its destination is bad |
| PushManager.Manager.SetSource | diyport/onvif_push.py:330-334 | a new source, all pushes reconciled with it; with the same URL every push of every device stays the same object, whatever the audio flag |
| PushManager.Manager.StopDevice | diyport/onvif_push.py:341-351 | no push of the device runs, its wanted channels are kept, other devices are untouched |
| PushManager.Manager.ClearDevice | diyport/onvif_push.py:353-358 | the device is forgotten |
| PushManager.Manager.Configure | diyport/onvif_push.py:364-377 | settings are applied channel by channel and all pushes reconciled |
| PushManager.Manager.StopAll | diyport/onvif_push.py:379-385 | every push ever started is stopped and nothing is wanted any more |
| PushManager.StopAndResume | diyport/onvif_push.py:341-351 | stopping a device and giving it the same source again restores every channel as it was |
| PushManager.RunAll | diyport/onvif_push.py:320-403 | after any sequence of operations the running pushes are exactly those asked for, each with the current URL, name and destination and with the audio flag its source had when it was started, and every other push ever started has been stopped |
| PushManager.AudioGoesStale | diyport/onvif_push.py:391-403 | after any sequence of operations a running push's audio flag differs from its source's exactly if the last source its device was given since the push was started has the other flag |
| PushManager.SourceSince | diyport/onvif_push.py:391-395 | every source the device was given since then had the same URL |
| PushManager.SilentCameraKeepsAudio | diyport/onvif_push.py:391-403 | three operations after which a push runs with audio although its source has none |
| HostStats.Mark | diyport/hoststats.py:85-92 | marking terminates on any parent graph and adds exactly what the root reaches and no earlier root had |
| HostStats.KnownRootAddsNothing | diyport/hoststats.py:97-98 | a root already in a group would add nothing |
| HostStats.GroupOf | diyport/hoststats.py:78-99 | a process is in the group of the first root, own tree, then patterns in order, then pid, that reaches it through child links, and in none if no root does |
| HostStats.SortedRises | diyport/hoststats.py:96 | each pattern's roots are tried in pid order |
| HostStats.CpuByGroup | diyport/hoststats.py:102-112 | each group's figure times the interval is the CPU its processes used, and together they are the CPU used by all processes of the later sample |

## Left out

- Devices.Device.Tick: takes as inputs the detections, Norfair's associations, the pixel check (`samePixels`), the corner filter (`held`), pending vehicle-model answers (`pendingAnswers`) and the event ids other cameras took (`skipped`); a tick is atomic, as under `_motion_lock`.
- TrackObjects.TrackObject: a track dict is an object with one record field; snapshots, attributes, plates, line crossings, pixel anchors and the peak-frame thumbnail are not among its keys.
- Devices.Device.CloseEvent: a leave is one message naming every member; which member supplies the snapshot, the four-second fallback to a single-tracker leave, and failing sends are not modelled.
- BoundedClosing.QuietCameraCloses: assumes no vehicle-model answer is pending on the quiet ticks; one holds a vehicle for at most 2.5 seconds of frame time, which is not a number of ticks.
- Engine.SortedStamps: two stamps with one monotonic time but different wall times come out in recording order; the program sorts a set and leaves their order open.
- Teardown of a camera: it groups tracks by ids of events that may be closed, so the claims are about ticks.
- Zone membership of detections: `inZone` and `faceZone` are inputs of a tick; ray casting itself is in `Zones`.
- Zones.PointInPolygon: asks for a polygon with at least one corner, as the program does (an empty one raises).
- Flv.RewriteIsInvertible: is about rewrites that end normally; `Flv.RewriteEndsAs` says which do. The bytes of doubles are an input, and so is what a failing socket does.
- Flv.RewriteEndsAs: asks for a clock that never goes back and stays below 2^64 ticks; otherwise packing a trailer raises, which `Flv.CopyOne` models as its own outcome.
- PushManager.Manager: a destination is good or bad by a given predicate; URL parsing, sockets, ffmpeg and retries are not modelled.
- HostStats.GroupOf: group patterns are given predicates on the command line; parsing of ps is not modelled.
- HostStats.CpuByGroup: asks for a positive interval (zero divides by zero in the program).
- Consolidation.ReduceDetections: numpy's argsort is any ranking by falling confidence (`rank`), and boxes have an area, which the program divides by.
- Regions.RegionsCover: between its two bounds (some cluster too long, no box too long) where other clusters' regions fall decides, and both happen (`OtherRegionCovers`, `WideClusterSticksOut`); no condition on the boxes alone is given for that case.
- Regions.ClusterCandidates: the square root is an input, and the clusters come in the order they were formed (the program passes them through a set).
- PlateVote.PlateRep: asks for at least one read, as the program does.
- Floating point: reals stand for floats everywhere, so rounding is not modelled.
- Threads, timers, stream restarts and waits, RTSP and WebSocket sessions, TLS, discovery, snapshots and uploads, configuration loading, logging: I/O without a provable core.
- Neural inference, OpenCV motion and pixel comparison, Norfair's Kalman filter, Apple's model: their answers are inputs.
- Line-crossing events: per track and separable; the direction at a centre exactly on the line is inconsistent in the program.
