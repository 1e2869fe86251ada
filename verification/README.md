# Retail loss-prevention pipeline: a verified model

This project models the decision-making core of a retail camera system and proves what it keeps. Video
is captured in a shop by a connector, cut into clips, uploaded through a backend to an analysis worker,
turned into events and scored. The Dafny files follow that path.

| part | files |
|---|---|
| Shared facts: set sizes, selections, polygons as point lists | `SetFacts`, `Selections`, `Polygons` |
| Track stitching: per-track statistics, greedy best-predecessor search, union-find with path halving, relabelling in place | `Detections`, `PersonStats`, `UnionFind`, `TrackMerge`, `TrackMergeApply`, `TrackMergeTheorems`, `TrackMergeSettles`, `TrackSimilarity` |
| Zone geometry: ray casting and the polygon validator | `RayParity`, `Zones`, `Triangles`, `PathSums`, `ZonePolygonValidator`, `ZonePolygonTheorems` |
| Event extraction: the pass over detections, the pass over timelines, the report | `EventTypes`, `Streaks`, `EventCues`, `EventTimelines`, `EventExtraction`, `EventMeaning`, `EventViews`, `EventSources`, `EventTheorems`, `EventBags`, `EventReentry`, `EventExits`, `EventReports`, `EventShelves`, `EventNames`, `EventMixup`, `EventAttribution`, `EventStitching` |
| Scoring: the risk engine and its offline mirror | `RiskEngine`, `RiskTheorems`, `RiskLevels`, `PeakClip`, `RiskPeak` |
| Clip delivery: durable queue, uploader, backend endpoints, analysis worker | `UploadQueue`, `ClipDelivery`, `ClipHistory`, `Uploader`, `AnalysisWorker`, `ClipJourney` |
| Setup: pairing, provisioning and finalize, with the client's crashes | `SetupTables`, `StoreSetup`, `ClaimGuard`, `ClaimTimes`, `Provisioning`, `SetupClient` |
| Connector consolidation at start-up | `ConnectorConsolidation` |
| Capture loop and bounded worker pools | `CaptureLoop`, `CaptureCuts`, `CapturePipeline`, `WorkerPool` |

Loops and objects that the source updates in place are methods and classes here; each is proved equal to a
specification function, and the theorems are about those functions. Protocols are state machines: one
function gives the next state for every action, including failed calls, lost answers, crashes and
interleavings, and the theorems hold of every run. `dafny verify dfyconfig.toml` checks everything.

Numbers are exact: floats are `real`, counters are unbounded. Cosine and distance are arbitrary functions
in the stitching model (the one theorem that needs a distance, the two-person example, asks for the
Euclidean one). Clocks, reads, network calls, thread scheduling and detector output are inputs.

Where the code and its documentation disagree, the model follows the code:

- Concealment is described as gated on sustained detections (`cloud-ai/app/events.py:26-28`), but the
  handled-then-bag path is not gated. `ConcealmentExactly` gives the exact condition and
  `ConcealmentNeedsNoSustainedCue` a two-frame clip that reports it.
- The index kept for a bag is called its last one (`cloud-ai/app/events.py:63`), but it is that of the last of
  the most confident sightings. `EventBags.LastSightingKeptExactly` says for every clip when it is the last
  frame with a sighting, `ClearerBagHidesLaterOne` gives a clip where it is not, and
  `ClearerBagHidesConcealment` shows that the same clip hides a bag that does follow a handled item.
- The zone and the track of a re-entry event are set in different places (`cloud-ai/app/events.py:217-222` and
  `:237-239`). `EventReports.ReentryNamesExactly` says when they belong to the same person;
  `ReentryMixesPersonsUp` and `NeverAtTheLeftShelf` give a clip whose event names a person at a shelf where
  that person never was.
- A failed analysis job is said to be retried soon (`cloud-ai/app/main.py:115`), but it is pushed behind
  everything that waits: it is next exactly when nothing waits (`RetriedNextExactly`), and each round serves
  everyone once (`RoundServesEveryoneOnce`). `RetryHasToWait` is a run with two clips.
- A second PC is said to be kept from rotating the key of an active connector
  (`backend/Controllers/ConnectorsController.cs:79-81`). A registration has no such guard at all
  (`RegistrationTakesOver`). A claim checks once, before its transaction: `GuardFailsExactly` says for every
  run when the connector is active again at the commit, `SecondClaimTakesOver` gives two claims that both
  go through (`TwoClaimsOfANewStore` from the empty tables on), and `KeyIsReplacedExactly` says that only
  claims and registrations ever replace a key.
- The offline mirror is said to mirror the risk engine; it does exactly when no low-staff event falls
  outside the window: `MirrorAgreesExactly`, with `MirrorDiffersAtNoon` for a list where it does not.

## Model

| member | source | states |
|---|---|---|
| PersonStats.CollectPersonStats | cloud-ai/app/track_merge.py:58-73 | the one pass with updates in place computes the per-track statistics of the sightings in order |
| PersonStats.StatsMeaning | cloud-ai/app/track_merge.py:62-72 | a track's first and last index and position are those of its first and its last sighting |
| PersonStats.StatsEmbeddings | cloud-ai/app/track_merge.py:64-66 | a track's embeddings are those of its sightings, in order, and no others |
| PersonStats.MeanEmbedding | cloud-ai/app/track_merge.py:33-44 | the mean of equal-length vectors, component by component; none for none, for empty or for unequal ones |
| PersonStats.IsSinglePersonAtATime | cloud-ai/app/track_merge.py:76-82 | true exactly when every frame holds at most one tracked person |
| UnionFind.ParentTable.Find | cloud-ai/app/track_merge.py:102-106 | path halving ends at the top of the chain, moves no id to another top, and leaves a flat table unchanged |
| UnionFind.ParentTable.Link | cloud-ai/app/track_merge.py:149-150 | linking a root under an earlier-seen root keeps parents strictly earlier, so chains end |
| UnionFind.HalvingStep | cloud-ai/app/track_merge.py:103-105 | one halving step keeps every id under its top and parents strictly earlier |
| TrackMerge.FindBest | cloud-ai/app/track_merge.py:108-147 | the inner loop finds the admissible predecessor of highest score, the earliest on a tie, or none when there is none |
| TrackMerge.BestMeaning | cloud-ai/app/track_merge.py:114-147 | the chosen predecessor beats or ties every admissible one and was seen strictly earlier |
| TrackMerge.LinkAll | cloud-ai/app/track_merge.py:108-150 | after the linking loop every id's parent is the root the plain recursion gives it |
| TrackMerge.ResolvedIsFlat | cloud-ai/app/track_merge.py:108-150 | at every head of the linking loop every parent is a root and was seen earlier, so `find` takes at most one step |
| TrackMerge.RootMeaning | cloud-ai/app/track_merge.py:149-157 | the canonical id is its own, has no admissible predecessor, and was seen strictly before every other id it stands for |
| TrackMerge.CanonicalIsUniqueEarliest | cloud-ai/app/track_merge.py:149-157 | among the members of a class exactly the canonical id has the earliest first frame |
| TrackMerge.KeptExactlyWithoutPredecessor | cloud-ai/app/track_merge.py:149-157 | an id is kept if and only if no track is an admissible predecessor of it |
| TrackMerge.BuildPersonIdRemap | cloud-ai/app/track_merge.py:85-157 | the union-find program computes the remap of the plain recursion, identities left out |
| TrackSimilarity.AdmissibleWithEmbeddings | cloud-ai/app/track_merge.py:114-135 | two tracks with embeddings may be stitched if and only if the earlier one started first, the gap and the distance are within bounds and the cosine of their means reaches the threshold |
| TrackSimilarity.AdmissibleWithoutBoth | cloud-ai/app/track_merge.py:114-143 | without both embeddings the same bounds decide, and with several persons at once a gap of at most twenty frames |
| TrackSimilarity.RemappedExactly | cloud-ai/app/track_merge.py:108-157 | an id is remapped if and only if there is a track it may continue by these tests, and kept otherwise |
| TrackSimilarity.StitchedToTheMostAlike | cloud-ai/app/track_merge.py:145-157 | it ends up under the id of the track of greatest cosine, or of least distance, first seen and lowest id on a tie |
| TrackSimilarity.StrangersStayApart | cloud-ai/app/track_merge.py:131-134 | where every track has an embedding and no two reach the threshold nothing is remapped |
| TrackSimilarity.TwoIdsAreOneExactly | cloud-ai/app/track_merge.py:85-157 | two ids at one spot, one after the other, become one if and only if their embeddings reach the threshold |
| TrackSimilarity.MeanOfEqual | cloud-ai/app/track_merge.py:33-44 | the mean of equal embeddings is that embedding |
| TrackMergeApply.ApplyRemap | cloud-ai/app/track_merge.py:176-182 | the in-place loops relabel every object once, even when a detection object is shared |
| TrackMergeApply.MergeFragmentedPersonTracks | cloud-ai/app/track_merge.py:160-183 | every person detection ends under its canonical id; nothing else of any detection changes |
| TrackSimilarity.StitchedDetectionExactly | cloud-ai/app/track_merge.py:176-182 | a person with a remapped id gets the new one; nothing else of any detection changes |
| TrackMergeApply.RemapIsFlat | cloud-ai/app/track_merge.py:152-157 | no id that is mapped to is itself mapped |
| TrackMergeTheorems.MergingKeepsSinglePerson | cloud-ai/app/track_merge.py:76-82 | a clip shows one person at a time if and only if the stitched clip does |
| TrackMergeTheorems.MergedStart | cloud-ai/app/track_merge.py:58-73 | after stitching a canonical id starts where it started before |
| TrackMergeTheorems.MergedEnd | cloud-ai/app/track_merge.py:58-73 | after stitching a canonical id ends at the last sighting of its whole class |
| TrackMergeTheorems.MergeIdempotentExactly | cloud-ai/app/track_merge.py:58-183 | without embeddings, a second stitching changes nothing if and only if no canonical track starts close by in the very frame where an earlier one's class ends |
| TrackMergeTheorems.MergeIdempotentForOnePerson | cloud-ai/app/track_merge.py:58-183 | with at most one tracked person per frame and no embeddings stitching is idempotent |
| TrackMergeTheorems.MergeIdempotentWithoutFlicker | cloud-ai/app/track_merge.py:58-183 | for any number of persons, without embeddings: unless a track of a single frame shares its frame with the start of another, stitching is idempotent |
| TrackMergeTheorems.TwoPersonsNeedNotBeStable | cloud-ai/app/track_merge.py:120-143 | a clip of two persons that a second stitching changes, under the default limits |
| TrackMergeSettles.StitchingRemoves | cloud-ai/app/track_merge.py:152-183 | stitching removes exactly the ids it remaps, no more and no fewer |
| TrackMergeSettles.StitchingSettles | cloud-ai/app/track_merge.py:85-183 | with or without embeddings, for any number of persons: a clip of n + 1 tracks is stable after at most n stitchings |
| Zones.PointInPolygon | cloud-ai/app/zones.py:31-44 | the toggling loop is true exactly when the ray crosses an odd number of edges, never with fewer than three points |
| Zones.ZonesContaining | cloud-ai/app/zones.py:47-48 | the zones around a point, in their given order |
| EventShelves.ContainingExactly | cloud-ai/app/zones.py:47-48 | the zones around a point are exactly those whose polygon contains it, in their order |
| Zones.CrossesSymmetric | cloud-ai/app/zones.py:41 | the edge test does not depend on the direction of the edge |
| Zones.InsideHowever | cloud-ai/app/zones.py:31-44 | membership is the same for every cyclic rotation and for the reversal of a polygon |
| Zones.ChordAdditivity | cloud-ai/app/zones.py:31-44 | cutting any polygon along a chord: inside exactly one part if and only if inside the whole |
| Zones.TriangleFan | cloud-ai/app/zones.py:31-44 | membership is the exclusive or over the triangles of a fan |
| Triangles.CrossesExactly | cloud-ai/app/zones.py:41 | an edge is crossed if and only if one end is at most as high as the point, the other higher, and the point on that side of the line through both |
| Triangles.TriangleExactly | cloud-ai/app/zones.py:31-44 | a triangle contains a point off its edges if and only if the point is on the same side of all three |
| Triangles.PolygonExactly | cloud-ai/app/zones.py:31-44 | any polygon contains a point off its fan if and only if an odd number of fan triangles has it on one side of all edges |
| Triangles.SlantedEdge | cloud-ai/app/zones.py:41 | a point just under a slanted edge is inside, one just over it is outside |
| Zones.InsideImpliesInBox | cloud-ai/app/zones.py:31-44 | a point outside a box around the polygon is never inside |
| Zones.RectangleExactly | cloud-ai/app/zones.py:31-44 | a rectangle contains exactly its half-open box |
| Zones.NeighboursPartition | cloud-ai/app/zones.py:31-48 | rectangles sharing an edge share out the points of the whole: none twice, none lost |
| RayParity.ParityChord | cloud-ai/app/zones.py:35-43 | the additivity over a chord for any edge test that is blind to direction |
| ZonePolygonValidator.IsValid | backend/Services/ZonePolygonValidator.cs:9-70 | accepts exactly the arrays of at least three number pairs in the unit square that form a valid polygon |
| ZonePolygonValidator.FindCrossing | backend/Services/ZonePolygonValidator.cs:48-62 | the two loops find a crossing if and only if some two non-adjacent edges cross |
| ZonePolygonValidator.ShoelaceSum | backend/Services/ZonePolygonValidator.cs:40-46 | the loop computes the cyclic shoelace sum |
| ZonePolygonTheorems.ValidUnderRotation | backend/Services/ZonePolygonValidator.cs:38-64 | the answer is the same whichever point comes first |
| ZonePolygonTheorems.ValidUnderReversal | backend/Services/ZonePolygonValidator.cs:38-91 | the answer is the same in either direction |
| ZonePolygonTheorems.RectangleValidExactly | backend/Services/ZonePolygonValidator.cs:38-64 | a rectangle is valid if and only if its area is at least 0.00001 |
| ZonePolygonTheorems.LineNeverValid | backend/Services/ZonePolygonValidator.cs:38-39 | points on one line are never a valid polygon, as the comment promises |
| ZonePolygonTheorems.ChordArea | backend/Services/ZonePolygonValidator.cs:40-46 | cutting along a chord adds up the signed areas |
| ZonePolygonTheorems.CrossingsAreReal | backend/Services/ZonePolygonValidator.cs:72-91 | segments the test calls crossing meet in a point inside both |
| ZonePolygonTheorems.CrossingsAreFound | backend/Services/ZonePolygonValidator.cs:72-91 | segments that meet are called crossing if and only if they meet well inside both, at an angle that is not too flat |
| ZonePolygonTheorems.BowTieIsRejected | backend/Services/ZonePolygonValidator.cs:48-62 | a quadrilateral that crosses itself is rejected although it has an area |
| ZonePolygonTheorems.TriangleValidExactly | backend/Services/ZonePolygonValidator.cs:38-64 | three points are valid if and only if they enclose at least 0.00001, two never are |
| ZonePolygonTheorems.ReadsExactly | backend/Services/ZonePolygonValidator.cs:20-36 | a point is an array of two numbers from zero to one and nothing else |
| Streaks.LongestRunMeaning | cloud-ai/app/events.py:204-214 | the tracked best run is an unbroken run and no unbroken run is longer |
| Streaks.RisingSnoc | cloud-ai/app/events.py:169-171 | counting a hit after a miss counts the rising edges |
| EventCues.NearestPersonTrack | cloud-ai/app/events.py:32-47 | the id of the closest tracked person of the frame, the first on a tie, or 0 |
| EventAttribution.NearestExactly | cloud-ai/app/events.py:32-47 | the person with an id at the least squared distance in coordinates, the first on a tie |
| EventAttribution.NobodyNear | cloud-ai/app/events.py:32-47 | the track is 0 when nobody in the frame has an id |
| EventCues.ObserveDetection | cloud-ai/app/events.py:103-167 | every branch over one detection computes the accumulator update of its specification |
| EventCues.ScanClip | cloud-ai/app/events.py:97-176 | the nested loops compute the fold over all detections in order |
| EventTimelines.WalkTimeline | cloud-ai/app/events.py:193-231 | the loop over a timeline computes its longest high-value stay, rising edges at shelves, visited types and first indices |
| EventTimelines.DeriveSignals | cloud-ai/app/events.py:179-254 | the loop over tracks computes the cross-track signals of its specification |
| EventExtraction.ExtractEvents | cloud-ai/app/events.py:50-375 | the program reports exactly the specified evidence, in the fixed order; nothing for no frames |
| EventExtraction.ReportedExactly | cloud-ai/app/events.py:268-375 | an event is reported if and only if it is the evidence for its type |
| EventExtraction.EachTypeAtMostOnce | cloud-ai/app/events.py:268-375 | every clip reports each type at most once and never both exit events |
| EventMeaning.FrameSignals | cloud-ai/app/events.py:97-176 | handling episodes are the rising edges of a product at a shelf, the group is the greatest crowd of any frame, the first index is that of the first handled frame |
| EventMeaning.HandlingIsOneSignal | cloud-ai/app/events.py:145-171 | a product was at a shelf in some frame if and only if there is an episode |
| EventShelves.ShelfZonesExactly | cloud-ai/app/events.py:24-105 | the shelf zones are exactly those of type Shelf or HighValue, in their order |
| EventShelves.HandledExactly | cloud-ai/app/events.py:145-152 | a frame shows handling if and only if a product in hand lies inside a Shelf or HighValue zone |
| EventShelves.CrowdExactly | cloud-ai/app/events.py:108-115 | the crowd of a frame are the persons inside a Shelf or HighValue zone |
| EventShelves.BagAtExactly | cloud-ai/app/events.py:121-143 | a bag can lead if and only if it is seen inside a Shelf or HighValue zone |
| EventShelves.VisitAtShelfExactly | cloud-ai/app/events.py:216 | a visit is at a shelf if and only if it is inside a Shelf or HighValue zone |
| EventShelves.ShelfIdExactly | cloud-ai/app/events.py:216-221 | a shelf that is entered again is named by its high-value zone if that has an id, else by its shelf zone |
| EventShelves.ByTypeMeaning | cloud-ai/app/events.py:109-110 | a look-up by type gives the id of the last zone of that type |
| EventShelves.FarFromShelvesIsQuiet | cloud-ai/app/events.py:50-375 | a clip in which nothing lies in a Shelf or HighValue zone reports no shelf event, and concealment only by ten direct sightings |
| EventShelves.NoShelvesNoShelfEvents | cloud-ai/app/events.py:50-375 | so with every clip of a camera without such zones, checkouts and exits included |
| EventMeaning.CountMeaning | cloud-ai/app/events.py:123-160 | the gating counters count every detection of their cue |
| EventMeaning.CategoryMeaning | cloud-ai/app/events.py:118-167 | a high-value category is set if and only if its cue was seen in a high-value zone |
| EventMeaning.BagMeaning | cloud-ai/app/events.py:123-141 | the kept bag is the last of the most confident sightings at a shelf, or none |
| EventMeaning.TimelineMeaning | cloud-ai/app/events.py:109-111 | there is exactly one timeline per person track, holding all its visits in order |
| EventSources.OrAllMeaning | cloud-ai/app/events.py:116 | a chain of `or` keeps the first id that is not empty, else the last value |
| EventSources.HandlingSource | cloud-ai/app/events.py:149-152 | handling names the first shelf with an id and the first person near a product at a shelf |
| EventSources.ConcealSource | cloud-ai/app/events.py:161-165 | direct concealment names the first shelf with an id and the first person near any such sighting |
| EventSources.HighValueSource | cloud-ai/app/events.py:118-121 | high-value activity names the zone and the track of the first person seen in a high-value zone |
| EventSources.OrExactly | cloud-ai/app/events.py:113-152 | nothing, the empty text and track 0 give way; anything else stays |
| EventNames.EmbeddingExactly | cloud-ai/app/events.py:111-375 | an exit or a removal carries the first embedding of the track it names, no other event carries one |
| EventNames.GroupNames | cloud-ai/app/events.py:112-176 | the group is named after the persons at shelves in the first of the fullest frames |
| EventNames.EntryNames | cloud-ai/app/events.py:203-207 | a high-value entry names the first zone with a proper id and the first track in one, track by track |
| EventNames.BagTrack | cloud-ai/app/events.py:121-143 | a bag is put down to the person nearest to the last sighting that took the lead with anybody near |
| EventNames.ConcealmentNames | cloud-ai/app/events.py:303-315 | a concealment takes zone and track from the first of four sources that has one, cues only with ten sightings |
| EventNames.RemovalNames | cloud-ai/app/events.py:345-360 | a removal names the handled product's shelf and person, else the first track that stood at a shelf |
| EventNames.FirstAtShelf | cloud-ai/app/events.py:347-355 | that track is the first in order with a visit in a Shelf or HighValue zone |
| EventNames.ZoneOfExactly | cloud-ai/app/events.py:228-231 | an exit or blind spot is named by the first visit with a proper id |
| EventNames.FixedNumbers | cloud-ai/app/events.py:268-375 | the values and confidences that do not depend on the clip |
| EventTheorems.NoTrackExceeds | cloud-ai/app/events.py:233-239 | no track stays longer in a high-value zone, or re-enters more often, than the clip reports |
| EventTheorems.SomeTrackReaches | cloud-ai/app/events.py:233-239 | the reported dwell and re-entry count are those of some track, and the dwell's track and zone are right |
| EventTheorems.HighValueEntryExactly | cloud-ai/app/events.py:205-209 | reported if and only if some person was seen in a high-value zone with an id |
| EventTheorems.ConcealmentExactly | cloud-ai/app/events.py:291-307 | with a handled product: reported if and only if ten direct sightings or a bag in the lead after the first handled frame |
| EventTheorems.ConcealmentWithoutProduct | cloud-ai/app/events.py:291-307 | without a handled product only ten direct sightings report it |
| EventTheorems.ConcealmentNeedsNoSustainedCue | cloud-ai/app/events.py:297-300 | a clip with one item and one bag sighting that reports concealment |
| EventBags.LastSightingKeptExactly | cloud-ai/app/events.py:125-141 | the kept index is the last frame with a sighting at a shelf if and only if some sighting in that frame is as confident as every other |
| EventBags.ClearerBagHidesLaterOne | cloud-ai/app/events.py:127-128 | a clip whose last bag sighting is in frame 2 while the kept index is 0 |
| EventBags.ClearerBagHidesConcealment | cloud-ai/app/events.py:297-300 | in that clip a bag follows a handled item and no concealment is reported |
| EventTheorems.RepeatedHandlingExactly | cloud-ai/app/events.py:280-289 | the value counts handling episodes, or without any the most re-entries of one track; low-staff removal goes with a handled product |
| EventTheorems.GroupExactly | cloud-ai/app/events.py:329-333 | reported if and only if two persons stood at shelves in one frame, with the greatest such number |
| EventTheorems.HighValueActivityExactly | cloud-ai/app/events.py:335-344 | reported if and only if two of person, product and bag were seen in a high-value zone, under the gates |
| EventExits.LeftUnpaidMeaning | cloud-ai/app/events.py:241-249 | the test on first indices says: an exit and no checkout was visited, and some shelf no later than any exit |
| EventExits.ExitMeaning | cloud-ai/app/events.py:244-249 | the exit reported is that of the first leaving track with a zone to report |
| EventExits.ExitExactly | cloud-ai/app/events.py:309-321 | an exit is reported if and only if some track leaves so and has a zone to report, as a pickup if and only if a product was handled |
| EventExits.ExitExactlyWhenNamed | cloud-ai/app/events.py:241-249 | when every zone has an id that is the case if and only if somebody leaves |
| EventReentry.ReentryZoneKnown | cloud-ai/app/events.py:217-222 | there is a re-entry zone if and only if some track entered a shelf with an id |
| EventReentry.ZoneAndTrackAgreeExactly | cloud-ai/app/events.py:217-239 | the zone is that of the first track to enter a named shelf; the track is the same if and only if no later track re-enters more often than everybody up to it |
| EventReports.ReentryNamesExactly | cloud-ai/app/events.py:285-289 | the same for the event a clip reports |
| EventMixup.ReentryMixesPersonsUp | cloud-ai/app/events.py:217-239 | a clip of two persons and two shelves whose event names the shelf of one and the track of the other |
| EventMixup.NeverAtTheLeftShelf | cloud-ai/app/events.py:193-222 | in that clip the named track was never at the named shelf |
| EventReports.DwellExactly | cloud-ai/app/events.py:274-278 | reported if and only if somebody stayed in a high-value zone, with the longest stay in seconds to a tenth |
| EventReports.SecondsExactly | cloud-ai/app/events.py:233 | a stay times the frame rate is its number of frames, with a least rate of one in a million seconds |
| EventReports.RoundToIsNearest | cloud-ai/app/events.py:274-276 | values are rounded to the nearest multiple of a tenth or a thousandth |
| EventReports.ReportedInFixedOrder | cloud-ai/app/events.py:268-375 | every clip lists its events in the same order of types |
| EventReports.BlindSpotExactly | cloud-ai/app/events.py:251-254 | reported if and only if some track saw a blind spot with an id, and it names such a track and its zone |
| EventReports.BlindSpotWhenNamed | cloud-ai/app/events.py:323-327 | when every zone has an id that is the case if and only if some person was seen in a blind spot |
| EventReports.BagOpenExactly | cloud-ai/app/events.py:363-373 | reported if and only if open or plain bags were seen ten times and the leading sighting is at a shelf with an id |
| EventReports.BagOpenNamesLead | cloud-ai/app/events.py:363-373 | it names the shelf and the confidence of the leading sighting, open bags before plain ones |
| EventViews.SightingsAreDetections | cloud-ai/app/events.py:97-103 | the pass sees as many sightings of a cue as the clip has detections of it |
| EventAttribution.EventsNamePersons | cloud-ai/app/events.py:33-36 | every event carries the id of a person of the clip or 0, never the id of a bag or cue |
| EventStitching.TrackIdsDoNotMatter | cloud-ai/app/events.py:97-176 | clips that differ in track ids only agree on every cue-derived event up to the track it names |
| EventStitching.StitchingKeepsCueEvidence | cloud-ai/app/track_merge.py:174-183 | stitching changes no cue-derived event in presence, zone, value or confidence |
| RiskEngine.Accumulator.Award | backend/Services/RiskEngine.cs:101-107 | one award adds its points, its evidence and its type, and the zone when it is the first |
| RiskEngine.Score | backend/Services/RiskEngine.cs:94-187 | the switch computes the score of the contributing events; it fails if and only if a qualifying event has no configured weight |
| RiskLevels.LevelExactly | backend/Services/RiskEngine.cs:180-183 | high, medium, low or none exactly by the bands the score reaches |
| RiskLevels.DefaultLevels | backend/Services/RiskEngine.cs:180-183 | as shipped: low from 40, medium from 70, high from 90 points |
| RiskLevels.MorePointsNeverLower | backend/Services/RiskEngine.cs:180-183 | more points never lower the level |
| RiskLevels.AlertNamesTheStrongest | backend/Services/RiskEngine.cs:189-205 | the alert is named after the strongest type with an event that earns points, in a stated ranking |
| RiskLevels.WorthExactly | backend/Services/RiskEngine.cs:111-177 | six types always earn their weight, two from a threshold on, one in a window of hours that may run over midnight |
| RiskLevels.DwellOnTheLine | backend/Services/RiskEngine.cs:119-127 | a dwell earns the straight line from ten at the threshold to the weight at the maximum, to the nearest integer |
| RiskLevels.ScoreByTheRules | backend/Services/RiskEngine.cs:109-178 | the score is what each event earns and the entry weight once if anybody entered |
| RiskLevels.DefaultTable | backend/Services/RiskEngine.cs:109-178 | what a lone event of each type scores under the shipped rules |
| RiskLevels.DefaultDwell | backend/Services/RiskEngine.cs:119-127 | a lone dwell: nothing under thirty seconds, ten there, twenty from ninety on |
| RiskLevels.FailsExactly | backend/Services/RiskEngine.cs:109-178 | scoring fails if and only if an event that earns points has no weight |
| RiskLevels.EvidenceExactly | backend/Services/RiskEngine.cs:100-107 | the evidence are the events that earn points, entries only once, in their order |
| RiskLevels.ZoneExactly | backend/Services/RiskEngine.cs:100-107 | the zone is that of the first piece of evidence that has one |
| RiskTheorems.ScoreIsTotal | backend/Services/RiskEngine.cs:109-178 | the score is the entry weight at most once plus the worth of every qualifying event |
| RiskTheorems.OrderDoesNotMatter | backend/Services/RiskEngine.cs:94-204 | score, level, alert type and failure do not depend on the order of events |
| RiskTheorems.ScoreEvents | cloud-ai/eval/run_eval.py:41-64 | the loop with its set of seen types computes the mirror's score |
| RiskTheorems.MirrorExceeds | cloud-ai/eval/run_eval.py:41-64 | the mirror's score is the engine's plus ten for each low-staff event outside the window |
| RiskTheorems.MirrorAgreesExactly | cloud-ai/eval/run_eval.py:41-64 | both agree if and only if no low-staff event is outside the window |
| RiskTheorems.MirrorDiffersAtNoon | cloud-ai/eval/run_eval.py:41-64 | a low-staff event at noon: ten points in the mirror, none in the engine |
| RiskTheorems.MirrorAgreesAllDay | cloud-ai/eval/run_eval.py:42-43 | under an all-day window they agree on every list of events |
| RiskTheorems.DwellGrows | backend/Services/RiskEngine.cs:119-127 | longer dwells never score less, from ten at the threshold to the full weight at the maximum |
| RiskTheorems.RoundingIsNearest | backend/Services/RiskEngine.cs:124 | rounding is to the nearest integer and to the even one on a tie (section 4.3.1 of IEEE 754-2019) |
| RiskTheorems.SwappedWindowIsComplement | backend/Services/RiskEngine.cs:41-47 | swapping the ends of the low-staff window gives exactly the other hours |
| RiskTheorems.AlertTypeNamesSomething | backend/Services/RiskEngine.cs:189-204 | the fallback alert type is given if and only if nothing scored |
| RiskTheorems.ClipScoreAtMost185 | cloud-ai/app/events.py:268-375 | no extracted clip scores more than 185 under the default weights |
| RiskPeak.ClipReaches185 | backend/Services/RiskEngine.cs:94-187 | a clip that scores 185 under the default rules |
| UploadQueue.LocalStore.Enqueue | connector/app/store.py:80-87 | appends one pending row with no retries and returns its id |
| UploadQueue.LocalStore.NextPending | connector/app/store.py:89-98 | the unfinished row of lowest id, or none |
| UploadQueue.LocalStore.Mark | connector/app/store.py:100-112 | rewrites state, error and retries of exactly one row |
| UploadQueue.LocalStore.PendingCount | connector/app/store.py:114-116 | the number of unfinished rows |
| UploadQueue.FirstUnfinishedMeaning | connector/app/store.py:92-93 | the selected row is unfinished and every row before it is finished |
| ClipDelivery.Safety | connector/app/workers.py:21-61 | in every run, analysis reports included: unfinished jobs have attempts left, failed ones none, jobs finish in id order, closed jobs were delivered, a pushed clip is stored and no longer pending, no clip is pushed twice |
| ClipDelivery.DeletedOnlyOnceDelivered | connector/app/workers.py:38-49 | a file is removed only when its object is stored under a clip of its camera that is uploaded or already analyzed, and an analysis job was pushed |
| ClipDelivery.CrashKeepsJobSelectable | connector/app/store.py:89-98 | after a crash the next pass picks the very job that was in hand |
| ClipHistory.EnqueuedExactly | connector/app/store.py:80-87 | a clip is queued with its path, camera, duration and trigger, pending, behind the others |
| ClipHistory.FailureIsRecorded | connector/app/workers.py:50-59 | a failed attempt leaves its error and one attempt more in its own row, which is given up exactly when the attempts are used up |
| ClipHistory.JobsKeepTheirClip | connector/app/store.py:80-112 | along every run a queued job stays the job that was queued, and its attempts never go down |
| ClipHistory.PauseHoldsTheJob | connector/app/workers.py:23-35 | a pause between selecting a job and beginning it puts the job back untouched |
| ClipHistory.NothingArrivesNothingIsDone | connector/app/workers.py:36-49 | as long as no file reaches the storage every run leaves every file on disk and no job done |
| ClipDelivery.FinishedInOrder | connector/app/store.py:92-93 | no job finishes before one of lower id |
| ClipDelivery.AttemptsAreBounded | connector/app/workers.py:50-60 | settled attempts and attempts left number at most the limit per queued clip |
| ClipDelivery.PassSettles | connector/app/workers.py:23-61 | every pass that finds a job uses up at least one attempt, however its calls fare |
| ClipDelivery.GoodPassDelivers | connector/app/workers.py:37-49 | a pass whose calls succeed stores and pushes the first job once, under a new clip, closes it and removes its file |
| ClipDelivery.QueueDrains | connector/app/workers.py:23-61 | as many passes as attempts are left finish every job |
| ClipHistory.StatusNeverFallsBack | backend/Controllers/ClipsController.cs:80-81 | along every run a clip only goes from pending to uploaded to analyzed, so the complete call never undoes an analysis |
| ClipHistory.CompletesOnlyPending | backend/Controllers/ClipsController.cs:63-84 | in every run the complete call meets a clip that is pending and not yet pushed |
| ClipHistory.PushesAreBounded | connector/app/workers.py:23-61 | in every run a queue row is pushed, under whatever clip ids, at most as often as it may be attempted plus once per crash that forgot how its calls ended |
| ClipHistory.PushesAddUp | connector/app/workers.py:37-41 | the pushes counted row by row are all that were made |
| ClipHistory.LostAnswerRepeatsTheClip | connector/app/workers.py:37-61 | a row whose complete call lost its answer, with an attempt left, is pushed a second time under another clip id |
| Uploader.Backend.UploadUrl | backend/Controllers/ClipsController.cs:36-63 | a clip row is made exactly for a known camera of the calling connector; each refusal has its own error |
| Uploader.Backend.Complete | backend/Controllers/ClipsController.cs:66-84 | only the owner's clip with a stored object is marked and pushed, in that order |
| Uploader.Backend.Enqueue | backend/Services/ClipQueue.cs:14-24 | one more job on the queue |
| Uploader.UploaderLoop.TryUpload | connector/app/workers.py:37-41 | the calls of a pass are the machine's steps, ending in success or failure |
| Uploader.UploaderLoop.RecordFailure | connector/app/workers.py:50-59 | a failed attempt is recorded, as final when the limit is reached |
| Uploader.UploaderLoop.RunOnce | connector/app/workers.py:23-61 | one loop body is one pass of the machine; paused or idle it changes nothing |
| AnalysisWorker.Worker.Iterate | cloud-ai/app/main.py:94-124 | one loop body pops, attempts, and processes, retries or dead-letters as the machine does |
| AnalysisWorker.JobsAreConserved | cloud-ai/app/main.py:94-124 | for each clip: queued, in hand, processed, dead and lost jobs are as many as were pushed |
| AnalysisWorker.AtMostThreeAttempts | cloud-ai/app/main.py:102-122 | waiting jobs have had at most two attempts, all others one to three |
| AnalysisWorker.GivenUpExactly | cloud-ai/app/main.py:106-122 | in every run a job is dead-lettered if and only if an attempt found its clip missing or all three attempts at it failed |
| AnalysisWorker.RetriedNextExactly | cloud-ai/app/main.py:114-117 | a retried job is served next if and only if nothing else waits |
| AnalysisWorker.RetryHasToWait | cloud-ai/app/main.py:114-117 | a run with two clips in which the second is served before the retry of the first |
| AnalysisWorker.RoundServesEveryoneOnce | cloud-ai/app/main.py:114-117 | a retried job goes behind all that wait: each round serves every waiting job once and puts back the failures in order |
| AnalysisWorker.DrainsWithinThreeTurnsEach | cloud-ai/app/main.py:94-124 | three turns for each waiting job empty the queue |
| ClipJourney.DeletedFileIsAccountedFor | cloud-ai/app/main.py:94-124 | in every run of both machines a clip whose file was deleted is stored and has exactly one analysis job: queued, in hand, processed, dead or lost |
| ClipJourney.ProcessedIsAnalyzed | backend/Controllers/AiEventsController.cs:75-80 | in every run of both machines the clip of a processed job is marked analyzed and stays so, and only stored clips with exactly one analysis job are ever marked |
| SetupTables.FinalizeLeavesExactlyTheSet | backend/Controllers/ConnectorsController.cs:285-325 | after finalize exactly the cameras of the key set are attached, one per key, and no other camera changes |
| SetupTables.FinalizeIsIdempotent | backend/Controllers/ConnectorsController.cs:285-288 | a second finalize with the same set succeeds and changes nothing |
| SetupTables.CountTellsAll | backend/Controllers/ConnectorsController.cs:308-314 | the two counts are equal if and only if every key has its camera |
| SetupTables.UpsertedIsSound | backend/Services/CameraProvisioningService.cs:49-66 | the upsert keeps every table invariant and leaves the key under the id it had or a new one |
| SetupTables.PairedIsSound | backend/Services/ConnectorPairingService.cs:18-42 | pairing keeps one connector per store |
| SetupTables.AdoptedIsSound | backend/Services/ConnectorPairingService.cs:44-54 | adoption keeps source keys unique and cameras in their connector's store |
| StoreSetup.Backend.Pair | backend/Services/ConnectorPairingService.cs:24-42 | the row of the store is created or overwritten |
| StoreSetup.Backend.Adopt | backend/Services/ConnectorPairingService.cs:47-54 | unattached cameras of the store are attached unless the index forbids it |
| StoreSetup.Backend.Register | backend/Controllers/ConnectorsController.cs:48-61 | pairs a known store and adopts its cameras when the connector is new; fails after pairing if and only if the index refuses the adoption, which it does not in sound tables |
| StoreSetup.Backend.CreateSetupCode | backend/Controllers/ConnectorsController.cs:122-144 | a fresh code of thirty minutes for a known store |
| StoreSetup.Backend.CheckClaim | backend/Controllers/ConnectorsController.cs:68-94 | passes if and only if the code is good and no connector of the store is active |
| StoreSetup.Backend.CommitClaim | backend/Controllers/ConnectorsController.cs:96-116 | commits if and only if the code is still good, else changes nothing |
| StoreSetup.Backend.CreateCamera | backend/Controllers/CamerasController.cs:93-118 | a dashboard camera is attached to the store's connector and has no key |
| SetupTables.DashboardCameraExactly | backend/Controllers/CamerasController.cs:101-116 | a camera made on the dashboard has no source key, goes to the connector of its store if there is one, and moves no other camera |
| StoreSetup.Backend.Provision | backend/Services/CameraProvisioningService.cs:20-94 | upserts by connector and key and returns the camera's id; bad keys change nothing |
| StoreSetup.Backend.FinalizeSetup | backend/Controllers/ConnectorsController.cs:291-325 | succeeds if and only if the key set is not empty and wholly provisioned, and reports both counts |
| StoreSetup.StartIsSafe | backend/Data/OnevoDbContext.cs:46-59 | in every run: one connector per store, attached cameras at home, unique keys, no code consumed twice |
| StoreSetup.FirstClaimAdoptsEveryCamera | backend/Services/ConnectorPairingService.cs:44-54 | a store's first claim attaches every camera waiting there and never breaks the index |
| StoreSetup.LaterClaimMovesNoCamera | backend/Services/ConnectorPairingService.cs:44-46 | pairing again leaves every camera as it is |
| StoreSetup.SecondClaimTakesOver | backend/Controllers/ConnectorsController.cs:82-111 | with two good codes a second claim replaces the key of the connector the first made active |
| ClaimTimes.ClaimsInTimeExactly | backend/Controllers/ConnectorsController.cs:82-135 | in every run a claim that passed its checks goes through if and only if thirty minutes have not passed since the code was issued and no claim used it |
| ClaimTimes.ActiveExactly | backend/Controllers/ConnectorsController.cs:93-100 | a connector is active if and only if it said it was running within the last two minutes |
| ClaimTimes.MayClaimExactly | backend/Controllers/ConnectorsController.cs:86-105 | a claim passes its checks exactly with a code that is unused and not expired, for a store without an active connector |
| StoreSetup.TwoClaimsOfANewStore | backend/Controllers/ConnectorsController.cs:82-111 | the same for two codes issued for a store that was just added to the empty tables |
| ClaimGuard.GuardFailsExactly | backend/Controllers/ConnectorsController.cs:79-116 | over every run from a claim's check to its commit: the store has an active connector again if and only if the last claim, registration or report that touched it left it running with a recent heartbeat |
| ClaimGuard.GuardHoldsUntouched | backend/Controllers/ConnectorsController.cs:79-94 | while nobody touches the store's connector the guard still holds at the commit |
| ClaimGuard.KeyIsReplacedExactly | backend/Services/ConnectorPairingService.cs:34-42 | a connector's key is replaced by a committed claim or a registration of its store, active or not, and by nothing else |
| ClaimGuard.RegistrationTakesOver | backend/Controllers/ConnectorsController.cs:48-61 | a registration replaces the key of an active connector in every state |
| Provisioning.ProvisioningSurvivesCrashes | connector/app/provisioning.py:69-129 | for any source list, after any lost calls, crashes and dashboard cameras in between the completed backend is that of a run without incidents; each source that lacked an id has the backend's for its key, the others keep theirs |
| Provisioning.SetupEndsAsIfNothingHappened | connector/app/provisioning.py:69-137 | finalize then succeeds if and only if no id in the original list was stale, and leaves one attached camera per distinct key, as without incidents |
| Provisioning.ServedMeaning | backend/Services/CameraProvisioningService.cs:49-66 | each key's camera has the details of the last source that names it |
| SetupClient.Client.ProvisionSources | connector/app/provisioning.py:80-129 | the loop, broken off at any call, is a run of the machine; unbroken it gives every source its id |
| ConnectorConsolidation.FirstValue | backend/Data/DbSeeder.cs:49-60 | the keeper: latest heartbeat with none last, then newest, then lowest id |
| ConnectorConsolidation.Database.MoveCameras | backend/Data/DbSeeder.cs:49-64 | the update row by row, in any order, passes the index if and only if no key clashes within a store |
| ConnectorConsolidation.Database.Consolidate | backend/Data/DbSeeder.cs:30-161 | the batch succeeds if and only if source keys do not clash; otherwise it changes nothing; later constraints never fail |
| ConnectorConsolidation.ConsolidatedIsSound | backend/Data/DbSeeder.cs:95-160 | the result has one connector per store, stores for all connectors and no dangling camera |
| ConnectorConsolidation.OwnershipIsKept | backend/Data/DbSeeder.cs:61-138 | every camera and clip of a live store's connector stays with that store; references to orphans are dropped; a clip keeps one to no connector at all |
| ConnectorConsolidation.RowsAreKept | backend/Data/DbSeeder.cs:46-48 | no camera or clip row is lost and only its connector changes |
| ConnectorConsolidation.OneConnectorPerStore | backend/Data/DbSeeder.cs:49-99 | a store keeps exactly one connector if it exists and had any, the most recently active |
| ConnectorConsolidation.MostRecentlyHeardOf | backend/Data/DbSeeder.cs:49-60 | no other connector of the store was heard of later; on a tie none was created later; on another none has a lower id |
| ConnectorConsolidation.SecondRunChangesNothing | backend/Data/DbSeeder.cs:19-161 | a second run succeeds and changes nothing |
| CaptureLoop.RunKeeps | connector/app/capture.py:492-624 | in every run clips are unbroken blocks of reads that hold their trigger, within the window, apart from each other, motion cuts a cooldown apart and only under a mask |
| CaptureLoop.ClipsAreDisjoint | connector/app/capture.py:604-624 | no two clips of a run share a frame, even while windows are resized |
| CaptureLoop.RequestIsHonoured | connector/app/capture.py:558-571 | a trigger request survives pauses and reconnects and cuts the next frame read |
| CaptureLoop.FailsClosed | connector/app/capture.py:308-370 | in any run, from the frame of a third failed fetch on, with none succeeding since the first, only requested cuts happen until a fetch succeeds |
| CaptureLoop.ZonesInForce | connector/app/capture.py:322-344 | at any time the zones are those of the last successful fetch if fewer than three fetches failed since, and none otherwise |
| CaptureLoop.RollingOk | connector/app/capture.py:544-552 | the buffer after a read ends with that read, whatever the new window |
| CaptureCuts.CutsExactly | connector/app/capture.py:558-575 | a frame makes one more clip if and only if a request is pending, or an analysis saw a person and enough moving pixels of a non-empty mask a cooldown after the last cut; the clip is manual exactly in the first case |
| CaptureCuts.NoFrameNoClip | connector/app/capture.py:492-542 | pauses, reconnects and requests make no clip themselves; a request waits until a frame is read |
| CaptureCuts.MotionIsCut | connector/app/capture.py:558-575 | a person moving in half the mask long after the last cut is cut |
| CaptureCuts.WindowExactly | connector/app/capture.py:150-153 | a window is as many whole frames as fit into its seconds, at least one |
| CaptureCuts.ClipFramesExactly | connector/app/capture.py:577-604 | the clip holds the buffered frames and the reads after the trigger: all the window asks for, those before the source broke, or none if interrupted |
| CaptureCuts.UndisturbedCut | connector/app/capture.py:577-604 | an undisturbed cut holds the trigger and the whole window after it |
| CaptureCuts.FetchesExactly | connector/app/capture.py:314-321 | zones are asked for exactly on a new frame size, after an edit or after ten seconds |
| CaptureCuts.UsableExactly | connector/app/capture.py:322-330 | of the fetched polygons those of three points or more in the unit square are used, in order |
| CaptureCuts.FetchedInForce | connector/app/capture.py:322-353 | a successful fetch puts its polygons in force and draws the mask at the size of the frame |
| CaptureCuts.KeptBetweenFetches | connector/app/capture.py:314-321 | while size and revision stay and ten seconds have not passed, zones and mask stay |
| CaptureCuts.FailedFetchExactly | connector/app/capture.py:337-353 | a failed fetch is counted; polygons and mask outlive two in a row, the third leaves an empty mask |
| CaptureCuts.NoProviderNoMotion | connector/app/capture.py:310-313 | without a provider there are no zones and only requests cut |
| CaptureCuts.NoClipSpansAPause | connector/app/capture.py:492-535 | what is cut after a pause or a reconnect holds only frames read after it |
| CapturePipeline.Pipeline.RefreshZones | connector/app/capture.py:308-353 | zones follow the last good fetch, survive two failures and are dropped by the third |
| CapturePipeline.Pipeline.CollectPost | connector/app/capture.py:575-602 | the frames after a trigger: until the window is full or the source breaks; none when interrupted |
| CapturePipeline.Pipeline.ConsumeTrigger | connector/app/capture.py:143-148 | a request is taken once |
| CapturePipeline.Pipeline.ProcessFrame | connector/app/capture.py:543-624 | one pass after a read: buffering, resizing, deciding and cutting |
| CapturePipeline.Pipeline.RunLoop | connector/app/capture.py:492-624 | the loop over all inputs is a run of the machine |
| WorkerPool.SlotsBalance | connector/app/runtime.py:187-252 | over all interleavings of either pool slots balance, no more jobs run than there are workers, each request is refused or accepted, dropped counts the refused ones and the accepted analyses whose caller timed out, and each accepted job is reported once before its slot is free |
| WorkerPool.ReleaseIsWithinBound | connector/app/runtime.py:244-249 | the bounded semaphore is never released past its bound |
| WorkerPool.SomeStepIsDue | connector/app/runtime.py:221-252 | while a slot is held some job can go on, and that brings the pool closer to all slots free |
| WorkerPool.EveryScheduleDrains | connector/app/runtime.py:187-252 | without new requests every schedule comes to rest after a number of steps known beforehand, and then all slots are free |
| WorkerPool.RuntimePools.constructor | connector/app/runtime.py:62-81 | one to four analysis workers and one or two for clips, by processor count, with all slots free |
| WorkerPool.RuntimePool.TryAccept | connector/app/runtime.py:223-226 | a free slot is taken, or one more request is dropped |
| WorkerPool.RuntimePool.CallerTimesOut | connector/app/runtime.py:214-219 | a caller that gives up counts its accepted request as dropped, and the job goes on |
| WorkerPool.RuntimePool.Finished | connector/app/runtime.py:244-249 | the job is reported and then its slot is freed |

## Left out

- TrackMergeTheorems.MergeIdempotentExactly: asks for no embeddings and at most 10^9 frames, because the first index of a track starts from 10^9 in the source.
- Provisioning.ProvisioningSurvivesCrashes: other requests in between are dashboard cameras only, the rest is in `StoreSetup.StartIsSafe`; the dashboard deletes no camera.
- EventReentry.ZoneAndTrackAgreeExactly: speaks of the zone only where some entered shelf has an id.
- RiskEngine.Score: sums unbounded integers; the 32-bit overflow of absurd weights is not modelled, and evidence lines are the events themselves, not their text.
- StoreSetup.Backend.FinalizeSetup: keys come trimmed; trimming and case folding of text is not modelled.
- ClipDelivery.Safety: covers runs without clearing the local queue; `cancelled` jobs and purged rows are not modelled, nor is an object that disappears from storage, nor a call that the backend serves only after its caller has gone on.
- WorkerPool.SlotsBalance: covers the pool before shutdown.
- ClipJourney.ProcessedIsAnalyzed: the event, risk and alert rows that a report saves, and saves again when it is repeated, are not modelled.
- CaptureLoop.RunKeeps: a trigger request counts at the next frame; preview, reference frames and live tracks are not modelled.
- Floating-point rounding in geometry, stitching and scoring; the JSON text behind polygons (documents are already parsed values).
- Detector, re-identification and live-tracker inference, video decoding and encoding, ONVIF calls.
- HTTP, authentication, password hashing, e-mail, server-sent events and signed URLs; callers are given identities.
- Dashboard, admin pages, tray and wizard user interface, store orchestration and reference-frame caching.
- Alert review, training datasets, analytics, version comparison and the track overlay.
- Redis outages between taking a job and pushing it on, beyond counting such a job as lost.
- Whether two concurrent pairings of one store collide in the database: a pairing row is written in one step, its adoption of cameras in a later one.
