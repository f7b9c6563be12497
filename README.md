# Square dance formation recognition, modelled in Dafny

This project models the core of a square dance choreography system written in Go.

- **Dancers.** Dancers are mutable objects with an ordinal, a gender, a couple number, an original partner, a position and a facing direction. They are identified by reference.
- **Dancer-set algebra.** Union, Intersection and SetDifference are keyed on dancer identity. There is also a sort by ordinal, and the squared set that a square starts from.
- **Relative-direction predicates.** LeftOf, RightOf, InFrontOf and Behind.
- **Formation rules.** Each rule takes dancers or smaller formations and either emits one formation or emits nothing:
  - two-dancer formations: pair, couple, mini-wave, face-to-face, back-to-back and tandem;
  - four-dancer formations: facing couples, tandem couples, back-to-back couples, box of four, star, line of four, wave of four and two-faced line.
  - Each formation also has role accessors: beaus, belles, leaders, trailers, centers, ends and handedness.
- **Roles and couple types.** The head and side roles, and gender-based couple classification.
- **Timeline.** An append-only log of dancer snapshots.
- **Action registry.** Actions are registered under unique names. Each action holds one formation action per formation type. The turn-only primitives and TurnToFace are modelled.
- **Catalog and diagram pages.** Their orderings and filters.
- **Experimental package.** The `formationpredicates` package's pair and side predicates.

Two abstractions stand in for the geometry package, which uses `float32` and is not part of this model:
- A `Direction` is an integer modulo a full circle of 360. A quarter turn left adds 90, a quarter turn right subtracts 90, and the opposite adds 180. Direction equality is equality of the normalised integers.
- Positions are pairs of reals. The bearing from one position to another (`directionTo`), the centre of a group of positions, and the polar offsets used to place squared sets are uninterpreted functions. They are carried in a `Space` record that every predicate receives.

`Antipodal(sp, a, b)` states that the bearing from b to a is the opposite of the bearing from a to b. It is a property of the plane, not of the code. Lemmas that need it take it as a hypothesis.

How the Go code maps onto Dafny:
- A Go rule calls `node.Emit` at most once. Each rule is a function returning an `Option` of the formation it emits.
- `rule_SetHasDancers` is a method whose loop returns the sequence of emissions.
- The global registries are classes whose methods append to a sequence or update a map: `AllFormationTypes` and `AllActions`.
- Go's `reflect` relations between formation types (AssignableTo, ConvertibleTo, TypeOf) are the fields of a `TypeSystem` parameter.
- A formation action's closure is one of three descriptions of what it does (`DoItFunc`).

## Model

| member | source | states |
|---|---|---|
| Dancers.Gender.Equal | dancer/dancer.go:36-40 | true exactly when both genders are specified and the same; Unspecified never equals anything, not even Unspecified |
| Dancers.Gender.Opposite | dancer/dancer.go:43-53 | a specified gender maps to the other specified gender; Unspecified maps to Unspecified |
| Dancers.GenderLaws | dancer/dancer.go:36-53 | Equal is symmetric; no gender equals its opposite; Opposite is an involution; a gender equals itself iff it is specified |
| Dancers.Dancer.constructor | dancer/dancer.go:55-84 | a new dancer has the given set, ordinal, gender, couple number, position and direction, and no original partner |
| Dancers.Dancer.SetOriginalPartner | dancer/dancer.go:171-173 | only the original partner changes, and it becomes the argument |
| Dancers.Dancer.Rotate | dancer/dancer.go:175-179 | only the direction changes; it becomes the old direction plus the relative turn, modulo the full circle; the dancer itself is returned |
| Dancers.Dancer.Move | dancer/dancer.go:181-185 | position and direction become exactly the arguments; nothing else changes; the dancer is returned |
| Dancers.Dancer.MoveBy | dancer/dancer.go:187-190 | only the position changes; it is displaced by the delta in both coordinates; the dancer is returned |
| Dancers.Dancer.NumberOfDancers | dancer/dancer.go:359 | a single dancer, as a formation, counts as many dancers as it lists |
| Dancers.Dancer.HasDancer | dancer/dancer.go:367-372 | true exactly when the argument is listed in the dancer's Dancers(), that is, when it is this dancer |
| Dancers.DancerSet.constructor | dancer/dancer.go:198-204 | a new set has the given flagpole centre and no dancers |
| Dancers.DancerSet.NumberOfDancers | dancer/dancer.go:207-210 | the count of the set's dancers, the same as the count of its dancer sequence as a formation |
| Dancers.DancerSet.HasDancer | dancer/dancer.go:212-215 | true exactly when the dancer is in the set |
| Dancers.NumberOfDancersIn | dancer/dancer.go:378 | the count is the length of the group, repetitions included; zero exactly for the empty group |
| Dancers.HasDancerIn | dancer/dancer.go:386-393 | true exactly when the dancer appears in the group (identity) |
| Dancers.UnionOf | dancer/dancer.go:286-302 | the pure union used by the role accessors: contains every dancer of either input, nothing else, and no duplicates |
| Dancers.Union | dancer/dancer.go:286-302 | d is in the result iff d is in some input set; the result has no duplicates |
| Dancers.Attendance | dancer/dancer.go:305-319 | the attendance map has a key for exactly the dancers of some input; entry k of a dancer's row is true iff the dancer is in input k |
| Dancers.MarkGroup | dancer/dancer.go:306-318 | after one group i is marked, the map has a key for every dancer it had or the group holds, entry i of each row is true iff the dancer is in the group, a new dancer's other entries are false and an existing dancer's other entries are unchanged |
| Dancers.AllPresent | dancer/dancer.go:322-326 | true iff every entry of the attendance row is true |
| Dancers.PresentEverywhere | dancer/dancer.go:320-330 | the result holds exactly the dancers whose row is all true, without duplicates |
| Dancers.Intersection | dancer/dancer.go:304-331 | d is in the result iff there is at least one input and d is in every input; the result has no duplicates |
| Dancers.Difference | dancer/dancer.go:336-352 | keeps exactly the universe's elements that are not in minus, and is never longer than the universe |
| Dancers.DifferenceAppend | dancer/dancer.go:344-349 | the difference of a concatenation is the concatenation of the differences, so the result keeps universe order |
| Dancers.DifferenceCounts | dancer/dancer.go:344-349 | a dancer not in minus occurs as often as in the universe, any other dancer never |
| Dancers.DifferenceNoDuplicates | dancer/dancer.go:336-352 | the difference of a duplicate-free universe is duplicate-free |
| Dancers.SetDifference | dancer/dancer.go:336-352 | the loop's result is the universe filtered in order; d is in it iff d is in universe and not in minus |
| Dancers.Reorder | dancer/dancer.go:88-92 | the i-th argument gets ordinal i+1; with repeated arguments, the last occurrence wins; for distinct arguments the ordinals become 1..n |
| Dancers.Ordered | dancer/dancer.go:110-125 | sorts the array in place into non-decreasing ordinal order; it stays a permutation of the input; the same array is returned |
| Dancers.Swap | dancer/dancer.go:112-114 | exchanges the elements at i and j and changes nothing else |
| Dancers.SinkLast | dancer/dancer.go:122-125 | one insertion step of the sort: the sorted prefix grows by one element, as a permutation |
| Dancers.PartnerIndex | dancer/dancer.go:253-255 | index^1: the partner index belongs to the same couple (same i/2) and has the other parity |
| Dancers.NewSquaredSet | dancer/dancer.go:218-257 | a Failure exactly for a negative count, where Go's make panics; otherwise a fresh set of 2c fresh dancers; dancer i has ordinal i and couple number i/2+1; it is a Guy for even i and a Gal for odd i; its direction is couple i/2's facing, its position its side of that couple's place, and its original partner is dancer i^1 |
| Dancers.PlaceSquaredDancers | dancer/dancer.go:223-251 | for the non-negative count NewSquaredSet has checked, the nested loops create 2c distinct fresh dancers, a Guy then a Gal per couple, each with the ordinal, couple number, gender, facing and place of its index |
| Dancers.LinkPartners | dancer/dancer.go:253-255 | every dancer's original partner becomes the dancer at index ^ 1 |
| Dancers.SquaredPartners | dancer/dancer.go:252-256 | in a squared set each dancer's original partner is another dancer, partnered back, of the opposite gender and the same couple |
| Dancers.SquaredFacings | dancer/dancer.go:224-249 | couple 1 faces direction 0, and partners face the same way |
| Dancers.MakeSomeDancers | dancer/dancer.go:260-271 | n fresh, distinct dancers (none for a negative count) with ordinals 0..n-1, gender Unspecified, couple number -1, no set, and the zero values Go leaves: position at the origin, direction 0, no original partner |
| Hands.Opposite | reasoning/handedness.go:14-21 | right and left are swapped; every other value, NoHanded included, maps to NoHanded |
| Hands.OppositeInvolution | reasoning/handedness.go:14-21 | Opposite is an involution on the three declared values, and NoHanded is its only fixed point |
| Geometry.Add | dancer/dancer.go:175-179 | a relative turn adds to the direction modulo the full circle |
| Geometry.QuarterLeft | reasoning/relative_direction.go:9-12 | a quarter turn counter-clockwise: plus 90 modulo 360 |
| Geometry.QuarterRight | reasoning/relative_direction.go:17-20 | a quarter turn clockwise: minus 90 modulo 360 |
| Geometry.Opposite | reasoning/roles.go:41-50 | a half turn: plus 180 modulo 360 |
| Geometry.QuarterTurnsDistinct | reasoning/relative_direction.go:9-33 | the four headings a dancer can see a neighbour at (left, right, ahead, behind) are pairwise different |
| Geometry.TwoRightsMakeOpposite | reasoning/relative_direction.go:30-33 | two quarter turns right make the opposite direction |
| Relations.LeftOf | reasoning/relative_direction.go:9-12 | dancer2 is left of dancer1 iff the bearing from dancer1 to dancer2 is a quarter left of dancer1's direction |
| Relations.RightOf | reasoning/relative_direction.go:17-20 | dancer2 is right of dancer1 iff the bearing is a quarter right of dancer1's direction |
| Relations.InFrontOf | reasoning/relative_direction.go:24-27 | dancer2 is in front of dancer1 iff the bearing is dancer1's direction |
| Relations.Behind | reasoning/relative_direction.go:30-33 | dancer2 is behind dancer1 iff the bearing is two quarter turns right of dancer1's direction |
| Relations.BehindIsOpposite | reasoning/relative_direction.go:30-33 | Behind(a, b) iff the bearing from a to b is the opposite of a's direction (two right turns) |
| Relations.AtMostOneRelation | reasoning/relative_direction.go:9-33 | for an ordered pair, at most one of LeftOf, RightOf, InFrontOf and Behind holds |
| Relations.OnlyPositionOfSecondDancerMatters | reasoning/relative_direction.go:6-33 | none of the four predicates depends on the second dancer's direction |
| Formations.Couple.Beaus | reasoning/two_dancers_rules.go:91 | the beau alone |
| Formations.Couple.Belles | reasoning/two_dancers_rules.go:92 | the belle alone |
| Formations.MiniWave.Beaus | reasoning/two_dancers_rules.go:137-149 | both dancers when right-handed, none when left-handed |
| Formations.MiniWave.Belles | reasoning/two_dancers_rules.go:151-163 | none when right-handed, both dancers when left-handed |
| Formations.FaceToFace.Leaders | reasoning/two_dancers_rules.go:196-198 | no leaders |
| Formations.FaceToFace.Trailers | reasoning/two_dancers_rules.go:200-205 | both dancers, dancer1 first |
| Formations.BackToBack.Leaders | reasoning/two_dancers_rules.go:233-238 | both dancers, dancer1 first |
| Formations.Tandem.Leaders | reasoning/two_dancers_rules.go:269-271 | the leader alone |
| Formations.Tandem.Trailers | reasoning/two_dancers_rules.go:273-275 | the trailer alone |
| Formations.Tandem.Direction | reasoning/two_dancers_rules.go:252-259 | the direction the tandem faces. Go only declares this method, so taking the leader's direction is the model's choice; TwoDancerRules.TandemFacts shows that an emitted tandem's trailer faces the same way |
| Formations.FacingCouples.Beaus | reasoning/four_dancers_rules.go:34-36 | the union of the two couples' beaus |
| Formations.FacingCouples.Belles | reasoning/four_dancers_rules.go:38-40 | the union of the two couples' belles |
| Formations.FacingCouples.Leaders | reasoning/four_dancers_rules.go:42-44 | the union of the two face-to-faces' leaders |
| Formations.FacingCouples.Trailers | reasoning/four_dancers_rules.go:46-48 | the union of the two face-to-faces' trailers |
| Formations.TandemCouples.Beaus | reasoning/four_dancers_rules.go:119-121 | the beaus' tandem's dancers |
| Formations.TandemCouples.Belles | reasoning/four_dancers_rules.go:123-125 | the belles' tandem's dancers |
| Formations.TandemCouples.Leaders | reasoning/four_dancers_rules.go:127-129 | the union of the two tandems' leaders |
| Formations.TandemCouples.Trailers | reasoning/four_dancers_rules.go:131-133 | the union of the two tandems' trailers |
| Formations.BackToBackCouples.Beaus | reasoning/four_dancers_rules.go:204-206 | the union of the two couples' beaus |
| Formations.BackToBackCouples.Belles | reasoning/four_dancers_rules.go:208-210 | the union of the two couples' belles |
| Formations.BackToBackCouples.Leaders | reasoning/four_dancers_rules.go:212-214 | every dancer is a leader |
| Formations.BackToBackCouples.Trailers | reasoning/four_dancers_rules.go:216-218 | no trailers |
| Formations.BoxOfFour.Handedness | reasoning/four_dancers_rules.go:297-299 | the first mini-wave's handedness |
| Formations.BoxOfFour.Beaus | reasoning/four_dancers_rules.go:301-303 | the union of the two mini-waves' beaus |
| Formations.BoxOfFour.Belles | reasoning/four_dancers_rules.go:305-307 | the union of the two mini-waves' belles |
| Formations.BoxOfFour.Leaders | reasoning/four_dancers_rules.go:309-311 | the union of the two tandems' leaders |
| Formations.BoxOfFour.Trailers | reasoning/four_dancers_rules.go:313-315 | the union of the two tandems' trailers |
| Formations.Star.Handedness | reasoning/four_dancers_rules.go:397-399 | the first mini-wave's handedness |
| Formations.Star.Beaus | reasoning/four_dancers_rules.go:401-403 | the union of the two mini-waves' beaus |
| Formations.Star.Belles | reasoning/four_dancers_rules.go:405-407 | the union of the two mini-waves' belles |
| Formations.LineOfFour.Beaus | reasoning/four_dancers_rules.go:447-449 | the union of the left and right couples' beaus |
| Formations.LineOfFour.Belles | reasoning/four_dancers_rules.go:451-453 | the union of the left and right couples' belles |
| Formations.LineOfFour.Centers | reasoning/four_dancers_rules.go:455-457 | the centre couple's dancers |
| Formations.LineOfFour.Ends | reasoning/four_dancers_rules.go:459-461 | the line's dancers that are not centres, in the line's order |
| Formations.WaveOfFour.Handedness | reasoning/four_dancers_rules.go:526-528 | the first outer mini-wave's handedness |
| Formations.WaveOfFour.Beaus | reasoning/four_dancers_rules.go:530-532 | the union of the two outer mini-waves' beaus |
| Formations.WaveOfFour.Belles | reasoning/four_dancers_rules.go:534-536 | the union of the two outer mini-waves' belles |
| Formations.WaveOfFour.Centers | reasoning/four_dancers_rules.go:538-540 | the centre mini-wave's dancers |
| Formations.WaveOfFour.Ends | reasoning/four_dancers_rules.go:542-544 | the wave's dancers that are not centres, in the wave's order |
| Formations.TwoFacedLine.Handedness | reasoning/four_dancers_rules.go:598-600 | the centre mini-wave's handedness |
| Formations.TwoFacedLine.Beaus | reasoning/four_dancers_rules.go:602-604 | the union of the two couples' beaus |
| Formations.TwoFacedLine.Belles | reasoning/four_dancers_rules.go:606-608 | the union of the two couples' belles |
| Formations.TwoFacedLine.Centers | reasoning/four_dancers_rules.go:610-612 | the centre mini-wave's dancers |
| Formations.TwoFacedLine.Ends | reasoning/four_dancers_rules.go:614-616 | the line's dancers that are not centres, in the line's order |
| Formations.MiniWave.Handedness | reasoning/two_dancers_rules.go:130-135 | RightHanded iff dancer2 is to dancer1's right, and never NoHanded |
| Formations.Formation.NumberOfDancers | reasoning/formation.go:8-18 | a formation counts exactly the dancers it lists |
| Formations.Formation.HasDancer | reasoning/formation.go:8-18 | true exactly when the dancer is among the formation's dancers |
| Formations.HasDancers | reasoning/formation.go:47-54 | true iff every given dancer is in the formation, so true for no dancers |
| Formations.OrderedDancers | reasoning/formation.go:58-65 | true iff ordinals strictly increase between neighbours; equal neighbours make it false; true for zero or one dancer |
| Formations.TwoDancerTests | reasoning/formation.go:47-65 | the two-dancer uses: both dancers in the formation; the first's ordinal below the second's |
| Formations.OrderedDancersAscending | reasoning/formation.go:58-65 | ordered dancers strictly ascend between any two positions, so none is listed twice |
| Formations.MiniWaveRoles | reasoning/two_dancers_rules.go:130-163 | a mini-wave is right- or left-handed; right-handed means both dancers are beaus and there are no belles, left-handed the reverse; the panics are unreachable |
| Formations.TwoDancerRoles | reasoning/two_dancers_rules.go:91-275 | a couple splits into its beau and its belle and a tandem into its leader and trailer; face-to-face dancers all trail, back-to-back dancers all lead |
| Formations.CouplesRolesCover | reasoning/four_dancers_rules.go:34-40 | with dancers the union of two couples: every dancer is a beau or a belle, and every beau and belle is a dancer |
| Formations.FacingCouplesRoles | reasoning/four_dancers_rules.go:34-48 | facing couples have no leaders; the trailers are exactly the dancers of the two face-to-faces; every dancer is a beau or a belle |
| Formations.TandemCouplesRoles | reasoning/four_dancers_rules.go:119-133 | beaus and belles are the two tandems in leader-trailer order; leaders and trailers are exactly the two tandems' leaders and trailers |
| Formations.BackToBackCouplesRoles | reasoning/four_dancers_rules.go:204-218 | leaders are all the dancers and there are no trailers; the beaus are the couples' beaus |
| Formations.EndsAndCenters | reasoning/four_dancers_rules.go:459-461 | ends, the dancers minus the centres, are dancers that are not centres, and every dancer is an end or a centre |
| Formations.LinesSplitIntoEndsAndCenters | reasoning/four_dancers_rules.go:455-461 | in a line of four, a wave of four and a two-faced line, ends and centres are disjoint and together cover the dancers |
| Formations.FourDancerHandedness | reasoning/four_dancers_rules.go:297-600 | box, star, wave and two-faced line take their handedness from a mini-wave, so it is never NoHanded |
| Formations.FormationTypeRegistry.constructor | reasoning/formation.go:35-44 | after initialisation the registry holds exactly "Dancer" and "Dancers", each under its own name |
| Formations.FormationTypeRegistry.Register | reasoning/formation.go:35-44 | registering adds or replaces the type under its name and keeps every type filed under its own name |
| Formations.FormationTypeRegistry.LookupFormationType | reasoning/formation.go:27-33 | succeeds iff the name is registered, and then returns the registered type; the same lookup serves action/action.go:30-36 |
| Formations.FormationTypeRegistry.LookupByName | reasoning/formation.go:27-44 | a successful lookup returns a type carrying the requested name |
| CoupleTypes.IsNormal | reasoning/couple_type.go:11-17 | a Guy as beau and a Gal as belle |
| CoupleTypes.IsSasheyed | reasoning/couple_type.go:22-28 | a Gal as beau and a Guy as belle |
| CoupleTypes.IsSameGender | reasoning/couple_type.go:32-34 | the two genders are Equal, which an unspecified gender never is |
| CoupleTypes.CoupleTypesExclusive | reasoning/couple_type.go:11-34 | normal and sasheyed never both hold; same-gender excludes both; same-gender iff two Guys or two Gals; normal or sasheyed iff the genders are specified and opposite |
| CoupleTypes.SwappedCouple | reasoning/couple_type.go:11-28 | a couple is normal iff the same couple with beau and belle exchanged is sasheyed; same-gender ignores the order |
| Roles.AllRolesRegisteredOnce | reasoning/roles.go:63-65 | every role is in the registry AllRoles, which has four entries and no repeats; AllRoles holds them in the order init appends them |
| Roles.Plays | reasoning/roles.go:19-61 | original heads are couples 1 and 3, original sides couples 2 and 4; current heads face direction 0 or its opposite, current sides a quarter turn either way from it |
| Roles.Filter | reasoning/roles.go:19-61 | the dancers that play the role, in the formation's order |
| Roles.FilterMembership | reasoning/roles.go:19-61 | the result holds exactly the dancers that play the role, and is no longer than the input |
| Roles.Apply | reasoning/roles.go:19-61 | the loop's result is the role filter of f.Dancers() |
| Roles.FilterIsSubsequence | reasoning/roles.go:19-61 | each role's result is an order-preserving subsequence of the formation's dancers |
| Roles.HeadsAndSidesDisjoint | reasoning/roles.go:19-61 | no dancer is both an original head and an original side, nor both a current head and a current side |
| Roles.NoCoupleNoOriginalRole | reasoning/roles.go:19-39 | dancers with couple number -1 (as MakeSomeDancers makes them) are neither original heads nor original sides |
| Roles.FilterAgrees | reasoning/roles.go:19-61 | two roles that agree on every dancer filter the dancers the same way |
| Roles.SquaredCoupleRoles | reasoning/roles.go:19-61 | a dancer of couple c+1 facing couple c's squared direction is an original head iff a current head, and an original side iff a current side |
| Roles.SquaredFourCouplesHeadsFaceHeads | reasoning/roles.go:19-61 | in a freshly squared four-couple set, the original heads are the current heads and the original sides are the current sides |
| SetRules.SetHasDancers | reasoning/set_rules.go:6-10 | emits exactly the set's dancers, in order, as many as the set holds (none for an empty set), and changes nothing |
| Timelines.Captured | timeline/timeline.go:81-90 | one snapshot per tracked dancer, in order, recording the time and the dancer's current position and direction |
| Timelines.FirstMatch | timeline/timeline.go:60-67 | None iff no snapshot has that dancer and time; otherwise the first snapshot that does |
| Timelines.InWindowOf | timeline/timeline.go:69-77 | keeps exactly the dancer's snapshots with start <= time < end, and is never longer than the log |
| Timelines.InWindowOfAppend | timeline/timeline.go:71-75 | the window of a concatenation is the concatenation of the windows, so the result keeps recording order |
| Timelines.InWindowOfCounts | timeline/timeline.go:71-75 | a snapshot in the window occurs as often as it was recorded, any other snapshot never |
| Timelines.Timeline.constructor | timeline/timeline.go:98-104 | tracks the given dancers, with no snapshots and most-recent time 0 |
| Timelines.Timeline.MakeSnapshot | timeline/timeline.go:81-96 | appends the captured snapshots and leaves the existing ones untouched; most-recent becomes the maximum of the old value and the time, so it never decreases |
| Timelines.Timeline.FindSnapshot | timeline/timeline.go:60-67 | the linear scan returns the first snapshot of the dancer at that time, or None |
| Timelines.Timeline.FindSnapshots | timeline/timeline.go:69-77 | the linear scan returns the dancer's snapshots in the half-open window, in order |
| Timelines.SnapshotFindsTracked | timeline/timeline.go:81-90 | after a snapshot at time t, FindSnapshot finds every tracked dancer at t |
| Timelines.FindOneAgreesWithWindow | timeline/timeline.go:60-77 | FindSnapshot at t succeeds iff FindSnapshots over [t, t+1) is non-empty |
| TwoDancerRules.MakePair | reasoning/two_dancers_rules.go:25-30 | the pair holds the two arguments with the lower ordinal first; on equal ordinals the second argument comes first |
| TwoDancerRules.MakePairForgetsArgumentOrder | reasoning/two_dancers_rules.go:25-30 | for different ordinals, MakePair(a, b) equals MakePair(b, a) and has strictly ascending ordinals |
| TwoDancerRules.PairOfDancers | reasoning/two_dancers_rules.go:58-64 | emits iff the two dancers differ; the pair then holds exactly those two, lower ordinal first |
| TwoDancerRules.GeneralizedCouple | reasoning/two_dancers_rules.go:94-100 | emits Couple(beau: dancer1, belle: dancer2) iff dancer2 is right of dancer1 and dancer1 is left of dancer2 |
| TwoDancerRules.CoupleOnlyOneWay | reasoning/two_dancers_rules.go:94-100 | a couple's dancers differ, and the swapped pair is not a couple |
| TwoDancerRules.CoupleFacesOneWay | reasoning/two_dancers_rules.go:94-100 | in the plane, the two dancers of an emitted couple face the same way |
| TwoDancerRules.MakeMiniWave | reasoning/two_dancers_rules.go:119-124 | the mini-wave holds the two dancers, lower ordinal first |
| TwoDancerRules.MiniWaveRule | reasoning/two_dancers_rules.go:165-178 | emits MiniWave(dancer1, dancer2) iff dancer1's ordinal is lower and each is right of the other, or each is left of the other |
| TwoDancerRules.MiniWaveFacts | reasoning/two_dancers_rules.go:130-178 | an emitted mini-wave's dancers differ; it is right-handed iff dancer1 is right of dancer2; in the plane they face opposite ways |
| TwoDancerRules.FaceToFaceRule | reasoning/two_dancers_rules.go:207-216 | emits iff dancer1's ordinal is lower and each is in front of the other |
| TwoDancerRules.FaceToFaceFacesOpposite | reasoning/two_dancers_rules.go:207-216 | in the plane, face-to-face dancers face opposite ways |
| TwoDancerRules.BackToBackRule | reasoning/two_dancers_rules.go:240-249 | emits iff dancer1's ordinal is lower and each is behind the other |
| TwoDancerRules.BackToBackFacesOpposite | reasoning/two_dancers_rules.go:240-249 | in the plane, back-to-back dancers face opposite ways |
| TwoDancerRules.TandemRule | reasoning/two_dancers_rules.go:277-286 | emits Tandem(leader: dancer1, trailer: dancer2) iff both face the same way, dancer2 is behind dancer1 and dancer1 is in front of dancer2 |
| TwoDancerRules.TandemFacts | reasoning/two_dancers_rules.go:269-286 | a tandem's dancers differ and it faces the dancers' direction; in the plane, the two relations alone make the rule emit |
| TwoDancerRules.FirstOfPairHasLowerOrdinal | reasoning/two_dancers_rules.go:25-30 | because MakePair orders by ordinal, every couple's beau and every tandem's leader has the lower ordinal of its pair |
| TwoDancerRules.MakePairHidesCouple | reasoning/two_dancers_rules.go:25-30 | the finding below: when the belle's ordinal is lower than the beau's, neither pair of the two dancers yields their couple |
| TwoDancerRules.PairInOrder | reasoning/two_dancers_rules.go:10-17 | the corrected pairing: emits iff the dancers differ, keeping the arguments' order |
| TwoDancerRules.PairsInOrderFindEveryCouple | reasoning/two_dancers_rules.go:10-17 | with both orderings paired, every side-by-side couple is found exactly once, beau first |
| TwoDancerRules.PairsInOrderEmitOnce | reasoning/two_dancers_rules.go:165-249 | with both orderings paired, the ordinal guards still let the symmetric rules emit only from the lower-ordinal ordering, and from that ordering they emit exactly what they emit from MakePair's pair |
| FourDancerRules.SwapPositions | reasoning/four_dancers_rules.go:10-14 | the two dancers exchange positions and keep their own directions |
| FourDancerRules.FacingCouplesRule | reasoning/four_dancers_rules.go:78-97 | emits iff couple1's beau has the lower ordinal, facing1 holds couple1's beau and couple2's belle, and facing2 holds couple2's beau and couple1's belle |
| FourDancerRules.FacingCouplesOnce | reasoning/four_dancers_rules.go:78-97 | an emitting rule has distinct beaus, and neither swapped argument order emits |
| FourDancerRules.TandemCouplesRule | reasoning/four_dancers_rules.go:164-183 | emits iff couple1's beau has the lower ordinal, tandem1 holds both beaus and tandem2 holds both belles |
| FourDancerRules.BackToBackCouplesRule | reasoning/four_dancers_rules.go:252-271 | emits iff couple1's beau has the lower ordinal, bb1 holds couple1's beau and couple2's belle, and bb2 holds couple2's beau and couple1's belle |
| FourDancerRules.BoxOfFourRule | reasoning/four_dancers_rules.go:349-373 | emits iff the mini-waves differ, tandem2 faces opposite to tandem1, mw1 holds tandem1's leader and tandem2's trailer, and mw2 holds tandem2's leader and tandem1's trailer |
| FourDancerRules.BoxOfFourTandemsDiffer | reasoning/four_dancers_rules.go:349-373 | an emitted box has two different tandems |
| FourDancerRules.SameDancersMakeNoBox | reasoning/four_dancers_rules.go:349-366 | two mini-waves holding the same dancers never pass the direction and membership tests with real tandems, so comparing them by value instead of by reference changes nothing the rule emits |
| FourDancerRules.Positions | dancer/dancer.go:275-282 | one position per dancer, in order |
| FourDancerRules.StarRule | reasoning/four_dancers_rules.go:409-423 | emits iff the mini-waves share a centre and mw2's dancer1 or dancer2 faces a quarter left of mw1's dancer1 |
| FourDancerRules.StarMiniWavesDiffer | reasoning/four_dancers_rules.go:409-423 | when mw2's dancers face opposite ways, a star's two mini-waves differ |
| FourDancerRules.LineOfFourRule | reasoning/four_dancers_rules.go:487-499 | emits iff c1's belle is c2's beau and c2's belle is c3's beau, with c2 the centre couple |
| FourDancerRules.LineOfFourShape | reasoning/four_dancers_rules.go:437-461 | for four distinct dancers the line's dancers are the two couples' dancers, the centres the inner two and the ends the outer two; the beaus are the couples' beaus and the belles their belles, in the order UnionOf gives |
| FourDancerRules.DifferenceOfFour | dancer/dancer.go:336-352 | removing the middle two of four distinct dancers leaves the outer two, in order |
| FourDancerRules.UnionOfDisjoint | dancer/dancer.go:286-302 | the union of two groups that share no dancer is their concatenation |
| FourDancerRules.DedupOfDistinct | dancer/dancer.go:286-302 | removing repeats from a duplicate-free group leaves it unchanged |
| FourDancerRules.WaveOfFourRule | reasoning/four_dancers_rules.go:546-571 | emits WaveOfFour(mw2, mw1, mw3) iff mw1 and mw3 both have the opposite handedness of mw2 and the membership test passes |
| FourDancerRules.CentreSharedAlways | reasoning/four_dancers_rules.go:546-571 | the membership test always passes, because mw2 holds its own dancers; so the rule emits iff the handedness condition holds |
| FourDancerRules.WaveOfFourHandedness | reasoning/four_dancers_rules.go:526-571 | in an emitted wave the outer mini-waves share a handedness opposite to the centre's; the wave's handedness is mw1's |
| FourDancerRules.TwoFacedLineRule | reasoning/four_dancers_rules.go:646-660 | emits iff the couples differ in beau or belle and mw holds both beaus or both belles |
| FourDancerRules.TwoFacedLineHandedness | reasoning/four_dancers_rules.go:598-660 | an emitted two-faced line has the centre mini-wave's handedness, never NoHanded, and two different couples |
| Actions.LevelsAscend | action/action.go:10-24 | thirteen levels, strictly increasing in declaration order from Primitive to NotOnList |
| Actions.Turned | action/primitive.go:12-49 | a right turn gives QuarterRight, a left turn QuarterLeft, an about-face Opposite; every turn changes the direction |
| Actions.TurnedTimesIsMultiple | action/primitive.go:18-23 | turning k times adds k times the turn's amount, modulo the full circle |
| Actions.FullTurnsRestore | action/primitive.go:12-49 | four quarter turns, or two about-faces, bring a dancer back to its direction |
| Actions.DistinctListedOnce | action/primitive.go:18-23 | in a group without repeats, each dancer is listed once, so the group variant turns it exactly once |
| Actions.OccurrencesIsMultiplicity | action/primitive.go:18-23 | the number of turns a group variant gives a dancer is its multiplicity in the group, zero iff it is absent |
| Actions.TurnFirstDancer | action/primitive.go:13-17 | fails (Go panics) iff there are no dancers, then changes nothing; otherwise turns only the first dancer, keeping every position |
| Actions.TurnEveryDancer | action/primitive.go:18-23 | keeps every position and turns each dancer once per listing; a dancer listed twice is turned twice |
| Actions.TurnToFace | action/primitive.go:53-70 | fails iff there are not exactly two dancers, then changes nothing; otherwise positions are kept, each turns towards the other, and two different dancers end up each in front of the other |
| Actions.DoIt | action/action.go:138-143 | succeeds iff the formation action applies and its closure does not panic; on failure (not applicable, or a closure that panics before any move) nothing moves; on success the closure's effect has happened |
| Actions.FirstWhere | action/action.go:56-91 | the first element satisfying the test, or None iff no element does |
| Actions.Action.constructor | action/action.go:93-102 | a new action has the given name and description and no formation actions |
| Actions.Action.AddFormationAction | action/action.go:46-53 | appends the given formation actions in order |
| Actions.Action.GetFormationAction | action/action.go:56-66 | the first formation action, in registration order, whose type the given type is assignable to, or None |
| Actions.Action.GetFormationActionFor | action/action.go:68-79 | the first formation action, in registration order, that the formation's type converts to, or None |
| Actions.FirstIn | action/action.go:56-66 | the search loop returns the first element satisfying the test, or None |
| Actions.ActionRegistry.constructor | action/action.go:82 | the registry starts empty |
| Actions.ActionRegistry.FindAction | action/action.go:84-91 | the first action with that name; None iff no action has it |
| Actions.ActionRegistry.DefineAction | action/action.go:93-102 | fails iff the name is taken, leaving the registry as it was; otherwise appends one fresh action with that name and description and no formation actions; names stay unique |
| Actions.ActionRegistry.DefineFormationAction | action/action.go:146-160 | reuses the named action if there is one, otherwise appends a new one with an empty description; then appends exactly one formation action to it; other actions are untouched; names stay unique |
| Actions.FirstNamedIsLast | action/action.go:84-102 | with unique names, the action just appended is the one FindAction finds |
| Actions.AddToLast | action/action.go:146-160 | adding a formation action to an already registered action appends it to that action's list; the registry's actions and every other action's list are unchanged, and names stay unique |
| Actions.DefineWithTwoFormationActions | action/primitive.go:12-23 | defining an action and then two Primitive formation actions yields one fresh action holding exactly those two, in order, and defines exactly one new name |
| Actions.DefineTurnPrimitives | action/primitive.go:9-49 | from an empty registry, QuarterRight, QuarterLeft and AboutFace are defined in that order, each with exactly its Dancer and Dancers formation actions |
| Actions.DefinePrimitives | action/primitive.go:9-70 | package initialisation defines QuarterRight, QuarterLeft, AboutFace and TurnToFace in that order, each with exactly its two formation actions; names stay unique |
| Strings.Less | action/catalog.go:23-30 | Go's string order: the first differing character decides, and a proper prefix comes first |
| Strings.LessIsStrictTotal | action/catalog.go:23-30 | Go's string order is irreflexive, asymmetric, transitive and total |
| Catalog.CatalogLess | action/catalog.go:21-31 | by action name, and on equal action names by formation type name |
| Catalog.CatalogLessIsLexicographic | action/catalog.go:21-31 | a smaller action name is less, a larger one is not less, and equal action names compare by formation type name |
| Catalog.CatalogLessIsStrictOrder | action/catalog.go:21-31 | the comparator is irreflexive, asymmetric and transitive; incomparable entries share both names |
| Catalog.AtLevelMembership | action/catalog.go:38-43 | a formation action is kept iff it is present and has the level |
| Catalog.AtLevel | action/catalog.go:37-42 | an action's formation actions at the level, in their order |
| Catalog.CatalogOf | action/catalog.go:34-43 | the formation actions at the level of every action, action by action in registration order |
| Catalog.CatalogMembership | action/catalog.go:34-44 | catalogued iff it has the level and some registered action holds it |
| Catalog.CollectCatalog | action/catalog.go:34-44 | the nested loops collect, action by action and in registration order, the formation actions at the level |
| Diagrams.SvgTemplateArg.HasSample | reasoning/diagrams.go:64-66 | whether a sample formation exists |
| Diagrams.SvgTemplateArg.DancerCount | reasoning/diagrams.go:68-73 | -1 iff there is no sample, otherwise the sample's number of dancers |
| Diagrams.NewSvgTemplateArg | reasoning/diagrams.go:53-58 | named after the formation type, with a sample iff one can be made for the type |
| Diagrams.FormationTypeLess | reasoning/diagrams.go:92-102 | by dancer count, and on equal counts by name |
| Diagrams.SamplelessSortFirst | reasoning/diagrams.go:44-48 | types without a sample sort before types with one; fewer dancers sort first; equal counts compare by name |
| Diagrams.FormationTypeLessIsStrictOrder | reasoning/diagrams.go:92-102 | the comparator is irreflexive, asymmetric and transitive; incomparable entries have equal count and name |
| Diagrams.FuncMap.constructor | reasoning/diagrams.go:16-21 | a function map holding the given entries |
| Diagrams.MergeTemplateFuncs | reasoning/diagrams.go:16-21 | tfm1 becomes the union of the two maps, with tfm2 winning on shared keys, and tfm1 itself is returned |
| Diagrams.MergeOverridesAndKeeps | reasoning/diagrams.go:16-21 | in the merged map, tfm2's keys carry tfm2's values, tfm1's other keys keep theirs, and there are no other keys |
| Diagrams.TemplateArgsOf | reasoning/diagrams.go:108-112 | one argument per registered formation type: as many arguments as types, every type's argument present, and no argument that is not some type's |
| Diagrams.CollectDiagramArgs | reasoning/diagrams.go:105-118 | fails iff no formation type is registered; otherwise one argument per registered type, covering every type |
| FormationPredicates.LeftOf | formationpredicates/relative_direction.go:11-14 | dancer2 is left of dancer1 iff the bearing is a quarter left of dancer1's direction |
| FormationPredicates.RightOf | formationpredicates/relative_direction.go:19-22 | dancer2 is right of dancer1 iff the bearing is a quarter right of dancer1's direction |
| FormationPredicates.AgreeWithReasoning | formationpredicates/relative_direction.go:11-22 | the package's LeftOf and RightOf coincide with the reasoning package's |
| FormationPredicates.NeverBothSides | formationpredicates/relative_direction.go:11-22 | LeftOf and RightOf never both hold for one ordered pair |
| FormationPredicates.SecondDirectionIrrelevant | formationpredicates/relative_direction.go:8-22 | neither predicate depends on the second dancer's direction |
| FormationPredicates.MakePair | formationpredicates/pair.go:10-25 | Dancer1() returns the first argument and Dancer2() the second |
| FormationPredicates.MakePairKeepsOrder | formationpredicates/pair.go:10-12 | no canonical order: swapping the arguments swaps the accessors; the two orders agree iff the dancers are the same, and such a pair is accepted |

## Left out

- The geometry package is not part of this model. Bearings, centres and the polar placement of squared sets are uninterpreted functions of a `Space` parameter. Float comparison is replaced by exact equality of integer directions.
- The plane geometry behind `Antipodal` is not derived. It is a hypothesis of the lemmas that need it.
- dancer/geometry.go (Center, Bounds, Distance) and `SpatiallyOrderedDancers` are left out. They are floating-point computations.
- `GoshuaEqual` is left out. It is the rete engine's equality hook, and it always answers false.
- `Dancers.Union`: the order of the result is not stated. Go builds it by iterating a map, whose order is unspecified. The method picks keys nondeterministically, so only membership and absence of duplicates are promised.
- `Dancers.Intersection`: the result order is not stated, for the same reason.
- UnionOf: the role accessors of the composite formations use this pure union, which lists the first argument's dancers and then the second's. Go's `dancer.Union` returns them in map order, which is unspecified. Only membership and the absence of duplicates carry over to Go.
- LineOfFourShape: its Beaus() and Belles() clauses fix the order [c1.beau, c3.beau] and [c1.belle, c3.belle]. That order comes from UnionOf. Go promises only these two dancers, in an unspecified order.
- Formation identity: Go compares formations such as mini-waves by reference, and the model compares them by value. Two mini-waves with the same dancers are equal in the model but distinct in Go. `FourDancerRules.SameDancersMakeNoBox` shows that this cannot change what `rule_BoxOfFour` emits for real tandems.
- `Dancers.NewSquaredSet`: dancers' positions come from the uninterpreted polar placement. Facing directions are exact only when the number of couples divides 360, because the Go code divides a float circle.
- The generated `Dancers()` of each composite formation is written from its `fe:"dancers"` annotations. The generated code is not part of this model.
- The rete engine is left out: reasoning/formations_rete.go, reasoning/find_formation.go and the wiring of rules into nodes. `node.Emit` becomes the `Option` a rule returns.
- formation_expander is left out. It is a build-time code generator.
- Samples are left out: reasoning/sample.go and the `make_*_sample` constructors. The diagram page receives `sampleOf` as a parameter.
- `FourDancerRules.StarRule`: the centre test compares `sp.center` of the two mini-waves' positions exactly. The float centre computation is not modelled.
- `Actions.DoIt`: what the formation's type is assignable or convertible to is the `TypeSystem` parameter, not Go's reflect package.
- `Actions.DefinePrimitives`: only the three turn primitives and TurnToFace are defined. It starts from the empty registry that package initialisation starts from.
- Meet, ForwardLeft/Right, PassToBacks, BackwardLeft/Right and BackToFace are left out, as is action/breathing.go. These moves compute float positions.
- `Actions.TurnToFace`: when both listed dancers are the same dancer, the direction from a position to itself is whatever `directionTo` gives. The mutual in-front-of property is promised only for two different dancers.
- Sorting is left out: the in-place `sort.Sort` calls in WriteCatalog and WriteFormationDiagrams. Only their comparators are proved to be strict orders, which is what the sort requires.
- `Diagrams.CollectDiagramArgs`: the argument order is not stated. Go iterates a map before sorting.
- HTML templates, file creation and output are left out, along with `timeline.ShowHistory`, every `String()` and `IdString` method, and `DancerTemplateFunctions`. They produce text only.
- formationpredicates/couple.go and formationpredicates/near.go are not part of this model. One holds declarations only; the other is float geometry.
- The action description "QuarterLeft turns the dancers one wall to the right." is kept as written in action/primitive.go:25.

## Findings

| source | as written | input that shows it | evidently intended | confidence | as-written member | corrected member |
|---|---|---|---|---|---|---|
| reasoning/two_dancers_rules.go:25-30 | `MakePair` puts the lower-ordinal dancer first whichever order it is called in. `rule_PairOfDancers` therefore emits the same pair for (a, b) and (b, a). `rule_GeneralizedCouple` only tries beau = Dancer1. | Two dancers side by side, facing the same way, where the belle (on the beau's right) has the lower ordinal. Both pairs put the belle first, and the couple is never emitted. | The comment at lines 10-17 says both orderings reach the rules, and the ordinal guards of the symmetric rules keep them from emitting twice. So the pair should keep its arguments' order. | not executed | TwoDancerRules.MakePairHidesCouple | TwoDancerRules.PairsInOrderFindEveryCouple |
