# throds in Dafny

A model of throds. throds lays out 3D-printable strut-and-joint skeletons for
polyhedra and writes them as OpenSCAD text. It has five parts; the model
covers each one and proves properties of it:

- **`mechlib.py`, the scene graph emitter.**
  - Leaves are `Rect`, `Cylinder` and `Text`.
  - Containers are union, `Difference`, `Intersection`, `Translate`,
    `Rotate`, `Color` and `Hide`. They keep an ordered list of children with
    no duplicates.
  - Every node emits its text from a template.
  - Modules `Mechlib` (the mutable nodes), `Scene` (the snapshot datatype and
    its text), `UniqueSeq` (the duplicate-free child list) and `Texts`.
- **`geometry.py`, the rods.**
  - A `Rod` for every edge of a `RodGraph`, each with its labels.
  - The flat list of six numbers per rod that `to_list` and `from_list`
    exchange.
  - The penalty terms `innards` builds and the overlap penalty table.
  - `twist`, `wiggle` and `fitness`.
  - The joint tables `Rod.D` fills.
  - The graph's OpenSCAD.
  - Modules `Rods`, `Penalty`, `RodGraphs` and `GraphScenes`.
- **`main.py`.**
  - The tetrahedron, octohedron and cube tables: modules `Solids` and
    `Polyhedra`.
  - `simulated_anneal`: module `Anneal`.
  - `main()`'s two outputs, the whole scene and the `--pieces` layout:
    module `Driver`.
- **`shapes.py`.** The calls `octahedron` and `dodecahedron` make on an
  `ObjBuilder`. Modules `Builders`, `ShapeTables`, `DodecaTables` and
  `EdgeTables`.
- **`x.c`.** `linear`, `dot` and `cross`, in module `Vectors`.

How the model represents the source:

- **Numbers.** Coordinates are `real`.
- **Numeric functions.** `sqrt`, `pow`, `atan2`, `cos`, `sin`, `pi` and
  `Vector.rotate` are fields of a `Math` value passed in (`Numerics.Math`).
  A proof that needs a fact about them states it as a precondition on that
  value; `SqrtIsRoot` is an example.
- **Number text.** How Python prints a number inside `str.format` is a
  function parameter `fmt`.
- **Mutable state.** Objects whose fields the source updates are classes:
  - `Mechlib.Node`;
  - `Rods.Rod` and `Rods.Buckets`;
  - `RodGraphs.RodGraph`;
  - `Builders.ObjBuilder`.

  Each method on them states the whole new state. Where the state is a
  function of the old one, that function is stated and proved about.
- **Randomness.** Draws from `random()` are a nondeterministic choice of a
  number in [0, 1).

## Model

| member | source | states |
|---|---|---|
| Vectors.LinearSelectsFirst | x.c:22-30 | `linear(1, v, 0, w)` and `linear(0, w, 1, v)` are v |
| Vectors.LinearIsAdd | x.c:22-30 | `linear(1, v, 1, w)` is v + w and `linear(1, v, -1, w)` is v - w |
| Vectors.DotSymmetric | x.c:32-37 | `dot(u, v) == dot(v, u)` |
| Vectors.DotSelfNonNegative | x.c:32-37 | `dot(v, v) >= 0` |
| Vectors.Cross | x.c:39-47 | the cross product is perpendicular to both arguments (dot with each is 0) |
| Vectors.CrossAntisymmetric | x.c:39-47 | `cross(u, v)` is minus `cross(v, u)` |
| Vectors.CrossSelfIsZero | x.c:39-47 | `cross(v, v)` is the zero vector |
| Vectors.FromArray | mechlib.py:45-47 | succeeds exactly for three numbers, and the result's `to_list` is the input; every other count fails (see "Left out" for two numbers) |
| Vectors.FromArrayToList | mechlib.py:42-47 | `from_array(to_list(v))` is v |
| Vectors.Nudge | mechlib.py:52-60 | succeeds exactly for index 0, 1 or 2 and then adds the amount to that coordinate, leaving the others unchanged; any other index gives ValueError with that index |
| Numerics.Normal | geometry.py:43 | defined exactly when the length is not zero; the result scaled by the length is the vector |
| Numerics.Abs | geometry.py:44 | non-negative and equal to a or -a |
| Numerics.Min | geometry.py:241 | no larger than either argument and equal to one of them |
| UniqueSeq.AddOne | mechlib.py:130-133 | the child is present afterwards; the list is unchanged if it already held it, otherwise it is appended; a duplicate-free list stays duplicate-free |
| UniqueSeq.AddAllKeepsPrefix | mechlib.py:135-138 | the children already there keep their places as a prefix |
| UniqueSeq.AddAllMembers | mechlib.py:135-138 | a node is a child afterwards exactly when it was one before or is among the kids |
| UniqueSeq.AddAllNoDup | mechlib.py:130-138 | children stay free of duplicates |
| UniqueSeq.AddAllPresent | mechlib.py:130-133 | re-adding children already present changes nothing |
| UniqueSeq.AddAllIdempotent | mechlib.py:135-138 | `containing` the same kids twice is the same as once |
| UniqueSeq.AddAllSnoc | mechlib.py:135-138 | one more kid is one more `add`, in argument order |
| UniqueSeq.AddAllDistinct | mechlib.py:119-124 | distinct kids added to a new container are its children in argument order |
| Mechlib.Accepted | mechlib.py:130-138 | how many leading kids `containing` adds before the first string stops it: all kids before it are nodes, and the kid at it is a string |
| Mechlib.RotateAxis | mechlib.py:176-183 | the axis is (x, y, z) without `vector`, the Vector itself when one is given, and a list converted by `Vector(*list)`, which succeeds exactly for three numbers (see "Left out" for two) |
| Mechlib.Node.Tree | mechlib.py:104-143 | a leaf's snapshot is its primitive; a container's has its class, position and one subtree per child, in order |
| Mechlib.Node.NewLeaf | mechlib.py:195-236 | a new leaf with no children whose snapshot is the primitive |
| Mechlib.Node.NewContainer | mechlib.py:126-128 | a new container of the given class at the constructor's vector, with no children |
| Mechlib.Node.Add | mechlib.py:130-133 | a string child fails the assertion with nothing changed; a node becomes a child unless it already is one (object identity), appended last |
| Mechlib.Node.Containing | mechlib.py:135-138 | adds the kids one by one in argument order up to the first string; it completes exactly when no kid is a string |
| Mechlib.NewRotate | mechlib.py:175-183 | a `Rotate` container with angle theta about `RotateAxis`, failing exactly when the axis conversion fails |
| Mechlib.Has | mechlib.py:119-124 | a fresh container of the class at the origin whose children are the kids accepted, without duplicates |
| Mechlib.ContainerTest | mechlib.py:158-163 | the tree the test builds with `has` and `containing` is the union of the translated and the rotated cube |
| Scene.MakeTranslate | mechlib.py:73-74 | the text `translate([x, y, z])` with each coordinate rendered |
| Scene.OpeningDropsSemicolon | mechlib.py:140-141 | a container's text opens with its leaf text minus the `;`, then `{` and a newline |
| Scene.EmitAllAt | mechlib.py:142 | child i's text is the i-th of the texts joined |
| Scene.StripBox | mechlib.py:140-143 | without whitespace, a container's text is its header, `{`, its children's texts and `};` |
| Scene.StripRotateBox | mechlib.py:185-192 | without whitespace, a rotation's text is `rotate(theta, [x, y, z])` then `{`, its children's texts and `};` |
| Scene.CylinderPriority | mechlib.py:209-223 | the text depends only on the form chosen: `r1`/`r2` if `r1` is set, else `d1`/`d2` if `d1` is set, else `r` if set, else `d` |
| Scene.PrimBalanced | mechlib.py:195-236 | a cube's, cylinder's or text's output has balanced braces when the numbers and the text have none |
| Scene.OpeningBraces | mechlib.py:140-141 | every container's opening holds exactly one `{` and no `}` |
| Scene.TextBalanced | mechlib.py:226-236 | the `Text` template, with its doubled braces, emits balanced braces |
| Scene.EmitBalanced | mechlib.py:113-143 | any scene's text has balanced braces, given brace-free number texts and labels |
| Scene.ContainerTestText | mechlib.py:158-168 | the test's scene, with spaces and newlines removed, is exactly the expected `union(){translate([1,2,3]){cube([4,5,6]);};rotate(10,[7,8,9]){cube([11,12,13]);};};` |
| Scene.ContainerTestOf | mechlib.py:164-168 | a union of two parts whose stripped texts are the test's two halves strips to the expected text |
| Texts.NatToString | geometry.py:340-341 | the `{0}` rendering of a count is a non-empty string of digits |
| Texts.NatToStringInjective | geometry.py:340-341 | different counts give different strings |
| Texts.JoinAppend | mechlib.py:142 | joining one more text appends the separator and that text |
| Texts.StripConcat | mechlib.py:166 | removing whitespace from a concatenation removes it from each part |
| Texts.StripRemovesAll | mechlib.py:166 | no space or newline is left |
| Texts.CountConcat | mechlib.py:140-143 | character counts add up over concatenation |
| Rods.BoreWidth | geometry.py:64-69 | the bore diameter `0.27 * INCH` is 6.858, under the 20 that `prepareText` asserts |
| Rods.SleeveWidth | geometry.py:71-75 | the sleeve diameter `0.5 * INCH` is 12.7, under 20 |
| Rods.SharesVertexSymmetric | geometry.py:47-52 | sharing a vertex is symmetric |
| Rods.TwistKeepsMidpoint | geometry.py:293-299 | adding d to v1 and subtracting it from v2 keeps the midpoint |
| Rods.FreshRod | geometry.py:30-39 | a new rod's ends and original ends are the two vertices, it has no labels, and it is at rest: its length is its ideal length (`vdist_delta` is 0) and its midpoint is the original one |
| Rods.Rod.constructor | geometry.py:30-39 | the rod's fields are `FreshRod` of its two vertices |
| Rods.NearestDistance | geometry.py:41-45 | undefined exactly when the rods are parallel (the cross product of their directions has length zero); otherwise non-negative |
| Rods.LabelRing | geometry.py:138-155 | the `diam < 20` assertion comes first; then nothing for a missing label, else a union of four copies turned 0, 90, 180 and 270 degrees |
| Rods.PrepareText | geometry.py:138-155 | the loop over the four angles builds `LabelRing` |
| Rods.AddText | geometry.py:126-130 | the part itself without a label; with one, `Difference(part, text)`, failing exactly when the diameter is not under 20 |
| Rods.PartsCylinder | geometry.py:109-130 | fails exactly when a label is given and the diameter is not under 20; otherwise a `Cylinder(h=length, d=diam)` centred on the origin along z, with the label ring cut out of it when a label is given, rotated by the angle between z and `delta` about `z × delta`, then translated to the centre |
| Rods.ShellAt | geometry.py:181-195 | a sleeve is a `Sleeve`-long cylinder of diameter `SleeveWidth()` placed at its end along the rod, with the end's label cut into it; building it never fails the label assertion |
| Rods.CutoutAt | geometry.py:203-208 | a bore is an unlabelled cylinder of diameter `BoreWidth()` and the given length, placed at the centre along the rod |
| Rods.Shells | geometry.py:181-201 | a union of two sleeves, `Sleeve` long and `SleeveWidth()` across: the first at v1 carrying `label1`, the second at v2 carrying `label2` |
| Rods.Cutout | geometry.py:203-208 | the unlabelled bore, `RodLength` long (the vertex distance plus `EXTEND` at each end) and `BoreWidth()` across, centred at the current midpoint along the rod |
| Rods.FileFacts | geometry.py:159-168 | filing adds the key, puts the text in its bucket, keeps the old bucket as a prefix and leaves every other key alone |
| Rods.FileBoth | geometry.py:159-168 | the imperative filing of two texts under two keys equals filing one, then the other |
| Rods.FileBothProperties | geometry.py:157-179 | after `D`, both vertices are keys, each text is in its vertex's bucket, buckets hold no string twice and only grow at the end |
| Rods.JointsProperties | geometry.py:169-170 | `dct2` maps both vertices to themselves |
| Rods.FileDistinct | geometry.py:165-168 | filing keeps every bucket duplicate-free |
| Rods.Buckets.Collect | geometry.py:159-179 | the three tables become `Filed` of the old ones, the two vertices and the three texts |
| Rods.Rod.D | geometry.py:157-179 | files the rod's shell texts and its cutout text under its original vertices, as `Filed` |
| Penalty.LastSegment | geometry.py:249-265 | no segment holds d exactly when the index found is none |
| Penalty.InterpolateLoop | geometry.py:249-266 | the lookup loop computes the piecewise-linear interpolation of the table |
| Penalty.OverlapPenaltyLoop | geometry.py:244-266 | `avoid_overlap`'s lookup on its table is `OverlapPenalty` |
| Penalty.OverlapPenaltyShape | geometry.py:244-266 | the cutoff is `1.05 * 6.35`; below it the penalty falls linearly from 10000; at or past it, and below 0, it is 0 |
| Penalty.OverlapPenaltyAtZero | geometry.py:244-266 | 10000 at distance zero |
| Penalty.OverlapPenaltyBounds | geometry.py:244-266 | always within [0, 10000] |
| Penalty.OverlapPenaltyMonotone | geometry.py:244-266 | non-increasing in the distance |
| RodGraphs.Reached | geometry.py:337-344 | how far `rods()`' loop gets: every edge before it names two vertices, the edge at it does not |
| RodGraphs.BuiltRodsShape | geometry.py:333-345 | rod k joins `verts[i]` and `verts[j]` of edge k, remembers them as its originals, and is labelled `k_>` and `<_k` |
| RodGraphs.LabelsUnique | geometry.py:340-341 | no two rods share a label, and no outgoing label equals an incoming one |
| RodGraphs.BuildRods | geometry.py:337-344 | the loop makes distinct new rods, one per edge up to the first bad index, which are `BuiltRods` |
| RodGraphs.NewLabelledRod | geometry.py:339-342 | a new rod on the edge's vertices with its two labels |
| RodGraphs.RodGraph.Rods | geometry.py:333-345 | the first call builds and caches the rods, failing on an edge past the vertex table; later calls return the same list |
| RodGraphs.RodGraph.FirstRods | geometry.py:334-344 | the first call's rods: `BuiltRods`, cached |
| RodGraphs.RodGraph.constructor | geometry.py:224-226 | no rods and no terms yet |
| RodGraphs.RodGraph.LookupVertex | geometry.py:287-291 | finds v exactly when it is a vertex, at its first position |
| RodGraphs.VertexIndexFirst | geometry.py:287-291 | the index is below the table's length exactly when v is present, names v, and no earlier vertex equals v |
| RodGraphs.RodGraph.ToList | geometry.py:301-305 | the six coordinates of every rod, v1 then v2, rod by rod |
| RodGraphs.RodGraph.FromList | geometry.py:307-311 | succeeds exactly for 6 numbers per rod and stores rod k's ends from `L[6k:6k+3]` and `L[6k+3:6k+6]`; otherwise nothing changes |
| RodGraphs.UnflattenFlatten | geometry.py:301-311 | reading back a flattened list gives the same ends |
| RodGraphs.FlattenUnflatten | geometry.py:301-311 | flattening what was read gives the same list |
| RodGraphs.FromListOfToList | geometry.py:301-311 | `from_list(to_list())` leaves every rod unchanged |
| RodGraphs.ToListOfFromList | geometry.py:301-311 | `to_list()` after `from_list(L)` is L |
| RodGraphs.WithEndsKeeps | geometry.py:307-311 | storing ends changes nothing but the current ends |
| RodGraphs.RodGraph.Twist | geometry.py:293-299 | every rod is moved by `TwistOne` up to the first whose twist axis has length zero; that one fails the division with the rods from it on untouched |
| RodGraphs.TwistKeepsMidpoints | geometry.py:293-299 | a twist changes only the current ends and keeps every rod's midpoint |
| RodGraphs.TwistRod | geometry.py:295-299 | one rod's step: it fails exactly when the axis length is zero, else the rod becomes `TwistOne` |
| RodGraphs.RodGraph.Wiggle | geometry.py:313-318 | only the ends change, and every coordinate moves by an amount in [-2·minimal_distance, 2·minimal_distance) |
| RodGraphs.Perturbed | geometry.py:313-317 | every entry moves by a draw in [-size, size) |
| RodGraphs.RodGraph.Innards | geometry.py:228-285 | rebuilds the rods, then for each rod lists its symmetry, length and two vertex terms and one overlap term per later rod sharing a vertex |
| RodGraphs.RodGraph.TermsOf | geometry.py:274-285 | the loop over the rods builds `InnardsTerms` |
| RodGraphs.RodGraph.RodBlock | geometry.py:275-285 | one rod's block, in order |
| RodGraphs.OverlapsOf | geometry.py:280-285 | the inner loop lists the overlap terms of later rods that share a vertex, in order |
| RodGraphs.TermsCount | geometry.py:274-285 | the term list has 4 per rod plus one per sharing pair |
| RodGraphs.RodTermIff | geometry.py:274-285 | rod i has a symmetry term and a length term exactly when i < n, and then exactly one of each (counted by `Occurrences`, which agrees with the multiset of the terms) |
| RodGraphs.RodTermCount | geometry.py:274-285 | the first n rods' terms hold each symmetry or length term of a rod below n exactly once, and none of a later rod |
| RodGraphs.OverlapTermIff | geometry.py:280-285 | an overlap term (i, j) is present exactly when i < j and the rods share a vertex |
| RodGraphs.BuiltOnVertices | geometry.py:333-345 | the rods' ends are vertices, so `lookup_vertex` always finds them |
| RodGraphs.TermsUpToInRange | geometry.py:274-285 | every term names an existing rod and vertex |
| RodGraphs.RodGraph.EvalTerm | geometry.py:229-272 | running a term's closure gives `TermValue` on the current rods; parallel rods fail |
| RodGraphs.RodGraph.SumLoop | geometry.py:320-325 | the loop's sum of squares is `SumOfSquares`, stopping at the first term that raises |
| RodGraphs.SumOfSquares | geometry.py:320-325 | a sum that succeeds is non-negative |
| RodGraphs.SumStopsAtFailure | geometry.py:320-325 | once a term raises, the whole sum raises that error |
| RodGraphs.RodGraph.Fitness | geometry.py:320-325 | a list of the wrong length fails and changes nothing; otherwise the rods take the list's ends and the result is the square root of the sum of squares |
| RodGraphs.RestingTermsVanish | geometry.py:228-272 | on freshly built rods the symmetry and length terms are zero |
| RodGraphs.HugOnVertexVanishes | geometry.py:236-242 | a vertex term is zero when the vertex is an end of the rod |
| RodGraphs.NewGraph | geometry.py:224-226 | a graph succeeds exactly when every edge names two vertices; then it holds `BuiltRods` and `InnardsTerms` |
| GraphScenes.GraphSceneShape | geometry.py:347-366 | `openscad` is a union of the hidden red negative and the difference of the positive parts and the negative; rod k gives shells at its two ends and a cutout at its midpoint |
| GraphScenes.OpenscadBalanced | geometry.py:357-366 | the graph's text has balanced braces when its labels and numbers have none |
| GraphScenes.GraphTextBalanced | geometry.py:333-366 | after any moves of the ends, a built graph's text has balanced braces, given brace-free number texts |
| Polyhedra.ReachedAll | geometry.py:337-344 | `rods()` gets through a table whose indices are all in range |
| Polyhedra.TetraVertices | main.py:19-28 | four vertices |
| Polyhedra.TetraCentred | main.py:24-28 | with the centroid subtracted, the four vertices sum to zero |
| Polyhedra.NewTetrahedron | main.py:14-39 | a ready graph over the tetrahedron's vertices and edges, holding its built rods |
| Polyhedra.NewOctohedron | main.py:42-61 | the same for the octohedron |
| Polyhedra.NewCube | main.py:64-87 | the same for the cube |
| Solids.TetraTable | main.py:34-39 | six edges, indices below 4, no self-loop |
| Solids.TetraSimple | main.py:34-39 | no edge twice, in either direction |
| Solids.TetraRegular | main.py:34-39 | three edges meet at every vertex |
| Solids.OctoTable | main.py:56-61 | twelve edges, indices below 6, no self-loop, and none joins the opposite pairs (0,1), (2,3), (4,5) |
| Solids.OctoSimple | main.py:56-61 | no edge twice |
| Solids.OctoRegular | main.py:56-61 | four edges meet at every vertex |
| Solids.OctoOpposites | main.py:43-50 | the opposite vertices are each other's negation |
| Solids.OctoPointsOnAxes | main.py:43-50 | vertex i is x times the i-th signed unit axis |
| Solids.OctoNeighbours | main.py:43-50 | two vertices that are not opposite are perpendicular and 2x² apart, squared |
| Solids.OctoEdgesAlike | main.py:43-61 | every octohedron edge has squared length 2x² |
| Solids.CubeVertexBits | main.py:65-73 | bit 2, 1 and 0 of the index give the sign of x, y and z |
| Solids.CubeTable | main.py:82-87 | twelve edges, indices below 8, each joining indices one bit apart |
| Solids.CubeSimple | main.py:82-87 | no edge twice |
| Solids.CubeRegular | main.py:82-87 | three edges meet at every vertex |
| Solids.CubeEdgesAlike | main.py:65-87 | every cube edge has squared length size² |
| Anneal.AddLists | main.py:101-102 | element-wise sum, as long as the shorter list |
| Anneal.MakeRandom | main.py:98-99 | as many draws as the list is long, each `(2u - 1) size` for some u in [0, 1) |
| Anneal.SimulatedAnneal | main.py:96-117 | the result is as long as the initial list, and its fitness is no higher than the initial one; it is the initial list unless strictly better; a fitness error is passed on; zero trials fail the schedule's division; a negative count makes no trial |
| Driver.ListFitnessOfToList | geometry.py:301-325 | `fitness(to_list())` is the fitness of the current rods |
| Driver.ListFitnessForgets | geometry.py:307-325 | `fitness(L)` depends on L only, not on the ends stored earlier |
| Driver.WithEndsTwice | geometry.py:307-311 | a second `from_list` overrides the first |
| Driver.Optimise | main.py:122-123 | after annealing and `T.from_list(result)`, only the ends have changed; they are the result's, whose fitness is no higher than before |
| Driver.Annealed | main.py:93 | `T` is the octohedron of size `12 INCH - 2 EXTEND`, and the annealed graph is no less fit than the built one |
| Driver.CachedRods | geometry.py:333-345 | `T.rods()` on a ready graph returns its cached rods and changes nothing |
| Driver.CollectJoints | main.py:156-157 | the loop of `D` calls leaves the tables `FiledRods` of the rods |
| Driver.FiledAllKeys | geometry.py:157-179 | after filing, every table's keys are the old keys plus the rods' original vertices, and `dct2` maps each joint to itself |
| Driver.CollectedTables | main.py:153-157 | starting from empty dicts, the keys of every table are exactly the original vertices, and every bucket holds balanced text |
| Driver.JointsOfFilings | main.py:156-157 | the joints filed are the rods' original vertices |
| Driver.CollectAll | main.py:153-157 | the three tables are the rods' filings from empty tables (`FiledRods`), keyed by exactly the original vertices, with balanced buckets |
| Driver.DictKeys | main.py:162 | `dct.keys()`: every key once, in some order |
| Driver.UniqueCount | main.py:162 | distinct keys number as many as the joints |
| Driver.PieceTexts | main.py:162-172 | `zip` stops at the shorter list; piece k is joint k translated by `offset - v` around a difference of the union of its shells and the union of its cutouts, with balanced braces |
| Driver.PieceBalanced | main.py:167-172 | each piece's text has balanced braces |
| Driver.Pieces | main.py:152-172 | every joint listed once in dict order, and piece k, for the first min(joints, 4), is `translate(offset_k - v)` around the difference of the union of the sleeves filed under joint v and the union of its bores; each piece has balanced braces |
| Driver.LaidOf | main.py:159-172 | texts made from the filed tables in key order are exactly the layout `Laid` describes |
| Driver.PiecesAfter | main.py:151-172 | `$fn = 20;` and then the laid-out pieces of rods whose ends may have moved |
| Driver.BuiltLabels | geometry.py:340-341 | built labels contain no brace |
| Driver.PiecesLines | main.py:151-173 | the output is `$fn = 20;` and then one line per piece, min(joints, 4) of them, each the translated difference of its joint's sleeves and bores |
| Driver.SceneLines | main.py:151-181 | the output is `$fn = 20;` and then the graph's `openscad()` |
| Driver.Run | main.py:120-181 | `main()`: anneal, store, then print either the scene or the pieces laid out per joint, all with balanced braces given brace-free number texts |
| Builders.ObjBuilder.constructor | shapes.py:10-15 | nothing received yet |
| Builders.ObjBuilder.AddVertex | shapes.py:12-13 | the base class raises `AbstractMethod`; a builder that implements it receives the vertex last |
| Builders.ObjBuilder.AddEdge | shapes.py:14-15 | the same for an edge |
| Builders.AddOctaVertices | shapes.py:31-36 | the six vertices on ±z, ±y, ±x at distance d, in that order |
| Builders.Octahedron | shapes.py:27-48 | six vertices then the twelve edges in the listed order; the base builder raises at the first call |
| Builders.DodecaRing | shapes.py:115-126 | five vertices per ring |
| Builders.DodecaVertices | shapes.py:115-126 | twenty vertices |
| Builders.AddRing | shapes.py:115-126 | one of the vertex loops: the ring's five vertices in order |
| Builders.AddRound | shapes.py:128-141 | one round of the edge loop: its six edges in order |
| Builders.Dodecahedron | shapes.py:51-141 | twenty vertices then the thirty edges of `DodecaEdges`; the base builder raises at the first call |
| DodecaTables.DodecaTable | shapes.py:128-141 | thirty edges, indices below 20, no self-loop |
| DodecaTables.DodecaSimple | shapes.py:128-141 | no edge twice in either direction |
| DodecaTables.DodecaRegular | shapes.py:128-141 | three edges meet at every vertex |
| DodecaTables.DodecaAt | shapes.py:128-141 | edge 6i + j is call j of round i |
| EdgeTables.DegreeIsCount | shapes.py:128-141 | a vertex's degree is the count over the table |
| EdgeTables.CountAppend | shapes.py:128-141 | counts add up over a table made of two parts |
| EdgeTables.KeySame | main.py:35-87 | below 64 vertices, equal keys mean the same edge in either direction |
| EdgeTables.DistinctKeysSimple | main.py:35-87 | a table whose keys differ has no edge twice |
| ShapeTables.OctaAsWrittenTable | shapes.py:37-48 | twelve edges, indices below 6, no self-loop |
| ShapeTables.OctaAsWrittenSimple | shapes.py:37-48 | no edge twice |
| ShapeTables.OctaAsWrittenRegular | shapes.py:37-48 | four edges meet at every vertex |
| ShapeTables.OctaAsWrittenThroughCentre | shapes.py:45-48 | edges (2,3) and (4,5) join opposite vertices, straight through the centre: 4d² squared against 2d² for a real edge |
| ShapeTables.OctaCorrectedTable | shapes.py:45-48 | the corrected equator: twelve edges in range, none a self-loop or through the centre |
| ShapeTables.OctaCorrectedSimple | main.py:56-61 | no edge twice, and the same edges as main's `Octohedron` |
| ShapeTables.OctaCorrectedRegular | shapes.py:37-48 | four edges meet at every vertex |
| ShapeTables.OctaCorrectedAlike | shapes.py:30-48 | every edge has squared length 2d² |
| Builders.OctahedronCorrected | shapes.py:27-48 | the same calls with the equator 2-4-3-5-2: six vertices, then the corrected twelve edges |

## Left out

- Floating point: numbers are exact reals. `sqrt`, `pow`, `atan2`, `cos`,
  `sin`, `pi` and `Vector.rotate` are uninterpreted fields of `Math`.
  Rounding, overflow and NaN are not modelled.
- Number printing inside `str.format` is the parameter `fmt`. Whether the
  text is valid OpenSCAD is left to the renderer.
- Int and float printing are not told apart. Every number in a scene is a
  real, and `fmt` gives one rendering per real value. Python prints the
  int `0` as `0` and the float `0.0` as `0.0`, and a sleeve's text holds
  both kinds: int ring angles, `theta=-90`, axis lists such as `[0, 0, 1]`,
  `Color(1, 0, 0)` and `Text`'s size and height, next to the float `atan2`
  angle and the float cross-product axis. So no `fmt` reproduces the exact
  text the source prints, and the text comparison behind `Rod.D`'s
  deduplication compares texts that differ from the source's. What the
  model proves, balanced braces and the structure of each text, holds for
  any `fmt` that prints numbers without braces.
- The `vector` module that `geometry.py` imports is not part of this model.
  Vectors are the value type `Vec3` with componentwise equality. This is
  an assumption: `mechlib.py`'s `Vector` defines no `__eq__`, and the
  unshown vector base class is taken to compare componentwise. The
  vectors `geometry.py` takes from that module and passes to `Translate`
  are assumed to pass `mechlib.py`'s `isinstance(x, Vector)` check, so
  the node unpacks x, y and z. The other branch, which prints the vector
  object as x with `0, 0`, is not modelled. The `Vector` methods beyond
  `__init__`, `to_list`, `from_array`, `nudge`, `format` and
  `make_translate` are not modelled, nor are its own unit tests.
- Randomness: each `random()` draw is any number in [0, 1). The
  distribution, and any connection between draws, is not modelled.
- Anneal.SimulatedAnneal: the number of trials and the shrinking of `size`
  by `mult` are not part of the contract. They do not affect the promise
  that the result is no worse, and stating them would need a ghost trial
  counter threaded through the random loop. Each draw is bounded by the size
  it is made with (`MakeRandom`).
- Dictionary order: `DictKeys` returns the keys in an order left open.
  Which four joints `--pieces` prints is therefore not modelled: the
  pieces are stated for whatever order the keys come in.
- `print` and `sys.exit` in `main()` are modelled as the returned list of
  output lines. Logging, `sys.argv` (a parameter `pieces`) and the dead
  `if False:` templates are left out.
- `HarmlessObjBuilder` only prints; it is not modelled.
- Builders.ObjBuilder: one `raising` flag covers both `add_vertex` and
  `add_edge`. A subclass that overrides only one of them, so that the
  other still raises, is not represented; every builder in the source
  overrides both or neither.
- The A/B gradient descent in `dodecahedron` is float iteration and is not
  modelled. Its results are the parameters `a` and `b` of
  `Builders.Dodecahedron`.
- The `isinstance` assertions on `size` and `objbuilder` in `shapes.py`
  hold by typing and are not modelled. So do the container child checks,
  except the `str` check in `add`, which is modelled.
- `tryit.py` (a script of float descent, templates, files and `os.system`)
  and `x.py` (ctypes loading of `x.so`) are not part of this model.
- `x.c`'s pointer arguments are values here, so the fact that the
  functions only read through them holds by construction.
- `Rod.nearest_distance`, `length`, `end1`/`end2` and the cylinder's
  `atan2` angle go through `Math`. Their geometric meaning is not proved.
  For parallel rods (a zero cross product) the model assumes that the
  unshown `Vector.normal()` raises on a zero vector. `Numerics.Normal`
  then returns `None`, and `Rods.NearestDistance` and every term that
  uses it fail.
- Driver.Optimise: `T.fitness` leaves the last candidate's ends in the
  rods. The model states that `from_list(result)` replaces them, and
  states nothing about the intermediate ends.
- Vectors.FromArray: a list of two numbers fails here. In the source,
  `Vector(a, b)` succeeds with `z` set to None. A vector with a missing
  coordinate is not a `Vec3`, and no caller passes two numbers.
- Mechlib.RotateAxis: `Rotate(vector=[a, b])` fails here, for the same
  reason as `FromArray`. A one-item list holding a Vector, which the source
  copies, cannot be written, because list items are numbers here.
- EdgeTables.Edge: indices are `nat`. Python's negative indices, which
  count from the end of the vertex list, are not modelled. Every edge
  table in the source is non-negative.
- Texts.NatToString: gives the decimal digits of `"{0}".format(i)` for the
  non-negative counts `rods()` uses. Other `format` cases are out of scope.

## Findings

| source | as written | input that shows it | evidently intended | confidence | as-written member | corrected member |
|---|---|---|---|---|---|---|
| shapes.py:45-48 | the octahedron's equator is added as 2-3-4-5-2, so edges (2,3) and (4,5) join opposite vertices (0,±d,0) and (±d,0,0) through the centre, and the equator edges (2,4) and (3,5) are never added | any size, so any d != 0: rod (2,3) has squared length 4d², twice that of rod (0,2) | the equator 2-4-3-5-2, giving the same twelve edges as main.py:56-61 | not executed | ShapeTables.OctaAsWrittenThroughCentre | Builders.OctahedronCorrected |
