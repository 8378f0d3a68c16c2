# Wall panel layout, modelled in Dafny

This project models the layout core of the WikiPrototypes Grasshopper plug-in.
The plug-in turns a wall (a straight length, or a planar polyline for an
irregular wall) into flat panels ready to mill. It works in three steps:

- **Modules.** Connector modules are tiled along every segment: a 40-unit A
  module and a 20-unit B module alternate on a 60-unit pitch. Floor-based
  counts decide how many fit, and the leftover is split at both ends.
- **Parts.** The wall's outline is built from fixed connector silhouettes and
  joined into one contour, the "narrow part". For every side of every
  segment there is also a "wide part", the wall's face.
- **Splitting.** A part longer than the maximum part length is cut by
  splitter curves. The finished pieces are numbered as branches. Each piece
  takes from shared pools the holes and mills it contains, and earlier pieces
  take first.

The model covers:

- the irregular wall blueprint, with the guide-line data behind it: contour
  points, axes of symmetry, turn signs;
- the straight wall blueprint;
- the older StraightWall and Wall components;
- the older side-part builder;
- the branch bookkeeping of the irregular wall volume;
- the input clamping of the blueprint components.

Geometry is not computed. Everything RhinoCommon does is a field of a
`Kernel` record of uninterpreted total functions, passed to every operation:

- lengths, angles, tangent and cosine;
- curve intersection, splitting, joining, boolean union and difference;
- point containment and bounding-box tests;
- translation.

Curves are an opaque type. Every call to a part builder (PartSectionBuilder,
WidePartBuilder, NarrowPartBuilder, ...) is a `Shape` value that carries the
call's arguments, and the kernel turns it into curves. So every number that
reaches a builder is modelled exactly, but the silhouettes themselves are not.
Doubles are exact reals. `Math.Floor` is `.Floor`, and a `for` loop over a
double count runs `Iterations(count)` times.

The modules follow the program's classes:

- `Kernel`: vectors, lines, the `Shape` and `Kernel` records.
- `Clamps`: the components' input clamps.
- `Layout`: module counts, rest, offsets and centres.
- `Progression`: splitter positions.
- `SplitScans`: the irregular wall's split-point scans.
- `Splitter`: the SplitPart state machine and how pools are shared out.
- `GuideLines`: GuideLinesData.
- `Corners`: caps and corner lines.
- `SideBuilder`, `Irregular`, `Straight`, `StraightWall`, `Wall`, `Volume`
  and `Components`.

## Model

| member | source | states |
|---|---|---|
| Clamps.AtLeast | WikiPrototypes/IrregularWallBlueprint_Component.cs:49-50 | Math.Max(x, lo) is at least lo, is one of its two arguments, and leaves a value already at the floor unchanged |
| Clamps.Within | WikiPrototypes/IrregularWallBlueprint_Component.cs:51-52 | Math.Min(Math.Max(x, lo), hi) lies in [lo, hi], keeps an in-range value, and sends a value below or above the range to the nearer bound |
| Clamps.AtLeastIdempotent | WikiPrototypes/StraightWallBlueprint_Component.cs:42-47 | raising the maximum part length to 60 a second time, as the straight component does, changes nothing |
| Clamps.WithinIdempotent | WikiPrototypes/StraightWallBlueprint_Component.cs:43-44 | clamping a second time into the same range changes nothing |
| Clamps.IrregularComponentSettings | WikiPrototypes/IrregularWallBlueprint_Component.cs:46-52 | without a curve nothing is produced; otherwise maxPartLength >= 120, maxCornerLength >= 10, thickness in [1, 3] and millingDiameter in [0, 1], and each input already in range passes unchanged |
| Clamps.StraightComponentSettings | WikiPrototypes/StraightWallBlueprint_Component.cs:42-47 | length and maxPartLength are at least 60, thickness in [1, 3], millingDiameter in [0.25, 1], and each in-range input passes unchanged; the double clamp of maxPartLength is a single clamp |
| Clamps.StraightWallSettings | WikiPrototypes/StraightWall.cs:42-43 | both lengths are raised to 60, and lengths already at least 60 are kept |
| Clamps.Modulated | WikiPrototypes/Wall.cs:39-40 | a modulated length is a multiple of 30 within 30 below the input; an unmodulated one is the input |
| Clamps.ModulatedIdempotent | WikiPrototypes/Wall.cs:39-40 | modulating an already modulated length leaves it unchanged |
| Layout.Centres | WikiPrototypes/StraightWallBlueprint.cs:72-83 | a module loop over a double count visits max(count, 0) centres, centre m at 60m past the first |
| Layout.CentresIncrease | WikiPrototypes/StraightWallBlueprint.cs:72-83 | module centres are at least a 60-unit pitch apart, so modules never overlap |
| Layout.IrregularCounts | WikiPrototypes/IrregularWallBlueprint.cs:249-252 | the A count is the number of whole 60-unit pitches in the axis; after the decrement there is one B fewer than there are A modules, and the modules and the two 10-unit end margins fit inside the axis |
| Layout.IrregularPlacement | WikiPrototypes/IrregularWallBlueprint.cs:248-279 | the slack at both ends is half the rest and at least 10; the first A module starts at the slack and the last A module ends at the slack from the far end; every B lies 30 past its A and 30 before the next A; every centre lies strictly inside the axis |
| Layout.Parameters | WikiPrototypes/IrregularWallBlueprint.cs:259-268 | each candidate split parameter times the axis length is its module centre |
| Layout.IrregularParameters | WikiPrototypes/IrregularWallBlueprint.cs:256-268 | the candidate split parameters lie strictly inside (0, 1) and strictly increase |
| Layout.WideExcess | WikiPrototypes/IrregularWallBlueprint.cs:153-157 | two excesses, the modules and the two 10-unit margins add up to the axis length; for a non-negative axis the excess is non-negative |
| Layout.StraightCounts | WikiPrototypes/StraightWallBlueprint.cs:58-59 | the A count is the number of whole 60-unit pitches; the B count equals it exactly when the last pitch has room for 40 more units, and is one less otherwise |
| Layout.StraightRest | WikiPrototypes/StraightWallBlueprint.cs:58-60 | the two margins, the modules and the rest add up to the length, and the rest lies in [0, 40) |
| Layout.StraightPlacement | WikiPrototypes/StraightWallBlueprint.cs:58-83 | the loops visit as many A and B centres as the floor counts give, A module m centred at 60m + 30 and B module m at 60m + 60; there are never more B modules than A modules, and a non-negative length has exactly floor-count A modules |
| Layout.StraightModulesReachRest | WikiPrototypes/StraightWallBlueprint.cs:72-85 | the last module (a B when the counts are equal, an A otherwise) ends exactly where the rest filler of GetMiddleConnectorRest begins, so the modules tile the wall without a gap |
| Layout.SideCounts | WikiPrototypes/IrregularSidePartBuilder.cs:49-51 | the side builder's counts have no decrement: B equals A or is one less, and equals A exactly when the axis is at least 60A + 40 long |
| Layout.SidePlacement | WikiPrototypes/IrregularSidePartBuilder.cs:49-74 | the slack is half a non-negative rest; the loops visit as many centres as the counts give, A module m centred at 60m + 20 past the slack and B module m at 60m + 50 past it, so each B lies 30 past its A |
| Layout.SideLayoutCentred | WikiPrototypes/IrregularSidePartBuilder.cs:49-74 | the side layout is centred: the slack before the first module equals the slack after the last one |
| Progression.Separation | WikiPrototypes/StraightWallBlueprint.cs:91 | the split step is the maximum part length rounded down to whole 60-unit modules: a multiple of 60, within 60 below the maximum, and at least 60 once the maximum is |
| Progression.StepsEvenlySpaced | WikiPrototypes/StraightWallBlueprint.cs:95-98 | consecutive splitters are exactly one step apart |
| Progression.StepsBounded | WikiPrototypes/StraightWallBlueprint.cs:93-98 | for a positive step no splitter passes the limit, the one after the last would, and there is a splitter exactly when the first position is within the limit |
| Progression.Run | WikiPrototypes/StraightWallBlueprint.cs:91-98 | a zero step never ends the loop when the span is positive and runs it zero times otherwise; any other step gives the evenly spaced positions from the first; with a positive step they stay within the limit and are maximal |
| Progression.StraightNarrowSplits | WikiPrototypes/StraightWallBlueprint.cs:89-99 | no splitter unless the part is longer than the maximum; otherwise splitters from 86.25, one step apart, never past the end of the last module, and at least one when 86.25 is within it |
| Progression.StraightWideSplits | WikiPrototypes/StraightWallBlueprint.cs:145-155 | no splitter unless the part is too long; otherwise splitters from half a module short of the step, one step apart, never past the end of the last module |
| Progression.IrregularWideSplits | WikiPrototypes/IrregularWallBlueprint.cs:185-195 | the wide part's splitters start at startOffset + excess + step - 30, are one step apart, and stay within the axis less its excess |
| SplitScans.FirstIn | WikiPrototypes/IrregularWallBlueprint.cs:285-301 | the index found is the least in the range whose parameter passes the test, and none is found only when no parameter passes |
| SplitScans.LastIn | WikiPrototypes/IrregularWallBlueprint.cs:304-322 | the index found is the greatest in the range whose parameter passes the test, and none is found only when no parameter passes |
| SplitScans.ForwardCornerScan | WikiPrototypes/IrregularWallBlueprint.cs:285-301 | the split is at the first candidate far enough from the start corner; the candidates before it are dropped and the split stays; with no such candidate nothing changes |
| SplitScans.RemoveAtRepeatedlyLeavesPrefix | WikiPrototypes/IrregularWallBlueprint.cs:317-318 | removing at index n once per entry from n on leaves exactly the entries before n |
| SplitScans.BackwardCornerScan | WikiPrototypes/IrregularWallBlueprint.cs:303-322 | scanning indices Count-1 down to 1, the split is at the last candidate far enough from the end corner, and it is dropped together with every candidate after it; index 0 is never inspected |
| SplitScans.StraightRunFrom | WikiPrototypes/IrregularWallBlueprint.cs:324-344 | every split is the first candidate after its anchor, and before the last candidate, that is far enough from the anchor; splits follow one another in order |
| SplitScans.MissedAnchorEndsRun | WikiPrototypes/IrregularWallBlueprint.cs:324-344 | on ascending candidates, an anchor that reaches nothing means no later anchor reaches anything |
| SplitScans.StraightRunIsChain | WikiPrototypes/IrregularWallBlueprint.cs:324-344 | on ascending candidates the straight-run splits form a chain: the first is measured from the start and each later one from the split before it |
| SplitScans.LineSplitParameters | WikiPrototypes/IrregularWallBlueprint.cs:285-344 | every split parameter chosen on a guide line is one of its candidate module parameters |
| Splitter.PointParameters | WikiPrototypes/IrregularWallBlueprint.cs:483-490 | the split parameters are exactly the parameters of the point events; overlap events are skipped |
| Splitter.Cut | WikiPrototypes/IrregularWallBlueprint.cs:452-509 | candidate A is cut exactly when the splitter meets it more than once; a splitter is skipped exactly when skipping is allowed and it misses B too, and a skip changes nothing; a cut archives the other candidate when asked to |
| Splitter.CutFrom | WikiPrototypes/IrregularWallBlueprint.cs:452-512 | the loop as written: one step per splitter, archived parts only grow, a non-skipping loop never skips, and the archive grows by one per non-skipped step after loop index 0 |
| Splitter.ArchivingWithoutSkips | WikiPrototypes/StraightWallBlueprint.cs:181-238 | without skips every step but the first archives a part |
| Splitter.SplitContoursAsWritten | WikiPrototypes/IrregularWallBlueprint.cs:448-512 | as written: without splitters the contour is the only part; otherwise two parts plus one per non-skipped step after index 0, so k + 1 parts for k splitters when none is skipped, and never more |
| Splitter.MissedFirstSplitterKeepsContour | WikiPrototypes/IrregularWallBlueprint.cs:463-483 | as written, a first splitter that misses the contour followed by one that cuts it gives three parts, the first the uncut contour; the intended loop gives only the two pieces |
| Splitter.MissedOnlySplitterDuplicatesContour | WikiPrototypes/IrregularWallBlueprint.cs:511-512 | as written, a single splitter that misses the contour gives the contour twice as two parts; the intended loop gives it once |
| Splitter.CutAfter | WikiPrototypes/IrregularWallBlueprint.cs:452-509 | the intended loop: a candidate is archived only after an earlier cut, so every cut but the first archives one part, and a loop that never cuts leaves the candidates untouched |
| Splitter.CutAfterFirstCut | WikiPrototypes/IrregularWallBlueprint.cs:452-509 | once a cut has happened, the intended loop and the loop as written take the same steps to the same result |
| Splitter.SplitContours | WikiPrototypes/IrregularWallBlueprint.cs:448-512 | one part more than there are splitters that cut: the contour alone when none cuts, exactly k + 1 parts for k splitters when none may be skipped |
| Splitter.SplitContoursAgree | WikiPrototypes/IrregularWallBlueprint.cs:448-512 | whenever the first splitter cuts, and always when no splitter may be skipped (the straight blueprints), the intended and the as-written parts are the same |
| Splitter.Select | WikiPrototypes/IrregularWallBlueprint.cs:521-533 | a curve is selected exactly when it is in the pool and the part claims it |
| Splitter.Reject | WikiPrototypes/IrregularWallBlueprint.cs:521-533 | a curve is kept in the pool exactly when it is in the pool and the part does not claim it |
| Splitter.SelectRejectConserve | WikiPrototypes/IrregularWallBlueprint.cs:521-533 | taking and keeping split the pool: together they hold every curve as often as the pool did |
| Splitter.DrainStep | WikiPrototypes/IrregularWallBlueprint.cs:521-533 | one pass of the backward drain loop at index j keeps its invariant with j one lower, whether or not the part claims entry j |
| Splitter.Drain | WikiPrototypes/IrregularWallBlueprint.cs:521-533 | the backward drain loop hands the part its claimed curves in reverse pool order and leaves the unclaimed ones in pool order |
| Splitter.Share | WikiPrototypes/IrregularWallBlueprint.cs:514-555 | every part gets one share, and the shares plus what is left hold every pooled curve as often as the pool did: nothing is lost or duplicated |
| Splitter.ShareTaken | WikiPrototypes/IrregularWallBlueprint.cs:514-555 | the first claimant wins: a curve in part i's share came from the pool, is claimed by part i, and is claimed by no earlier part |
| Splitter.ShareLeft | WikiPrototypes/IrregularWallBlueprint.cs:514-555 | a curve left in the pool came from it and is claimed by no part |
| Splitter.Assign | WikiPrototypes/IrregularWallBlueprint.cs:514-555 | parts are numbered index, index + 1, ... in contour order; holes and mills are shared out independently, each conserved |
| Splitter.SplitPart | WikiPrototypes/IrregularWallBlueprint.cs:431-558 | without splitters the contour is the one part with every hole and the mills go loose; otherwise the parts, cut by the loop with the loop-index archiving test as written, number two plus one for every splitter after the first that was not skipped, so at most one more than the splitters (exactly one more when no splitter may be skipped); they are numbered consecutively, with holes and mills conserved |
| Splitter.Whole | WikiPrototypes/IrregularWallBlueprint.cs:433-446 | the unsplit part holds every hole and no mill, and nothing is left over |
| Splitter.PartIndexes | WikiPrototypes/IrregularWallBlueprint.cs:554 | the branch index list records each part's own index, one per part |
| GuideLines.DeviationSign | WikiPrototypes/GuideLinesData.cs:103-108 | in the XY plane the deviation sign is the sign of the plan cross product: 1 for a left turn, -1 for a right turn, 0 for parallel |
| GuideLines.DeviationSignAntisymmetric | WikiPrototypes/GuideLinesData.cs:103-108 | swapping the two directions flips the sign |
| GuideLines.DeviationSignParallel | WikiPrototypes/GuideLinesData.cs:103-108 | parallel and antiparallel directions have no deviation |
| GuideLines.JointAt | WikiPrototypes/GuideLinesData.cs:36-60 | joint i sits at the start of the first line for i = -1 and at the end of line i otherwise; its turn sign is -1, 0 or 1, and 0 at the last joint |
| GuideLines.Writer | WikiPrototypes/GuideLinesData.cs:59-60 | every contour slot is written by exactly one pass of the loop: slots up to n by pass j - 1, the others by pass 2n - j |
| GuideLines.DeviationSigns | WikiPrototypes/GuideLinesData.cs:48-52 | one turn sign per guide line, each -1, 0 or 1, the last 0 |
| GuideLines.SetContourPoints | WikiPrototypes/GuideLinesData.cs:32-62 | after the loop, slot i + 1 holds joint i's left point, slot Length - 2 - i its right point, and the sign of joint i is recorded for i >= 0 |
| GuideLines.WriteJoints | WikiPrototypes/GuideLinesData.cs:36-61 | the loop over joints -1..n-1 writes every joint's two points to their mirrored slots and records the signs of joints 0..n-1 |
| GuideLines.WrittenJoints | WikiPrototypes/GuideLinesData.cs:32-62 | the finished loop over the guide's joints gives each joint's left and right points and sign |
| GuideLines.SetContourPointsMatches | WikiPrototypes/GuideLinesData.cs:59-60 | the array the loop writes equals the slot-by-slot reference definition of the contour points |
| GuideLines.ContourMirror | WikiPrototypes/GuideLinesData.cs:56-60 | the two contour points of a joint are mirror images about the guide vertex there, whatever the kernel's angles and lengths |
| GuideLines.ContourPointsMirrored | WikiPrototypes/GuideLinesData.cs:36-61 | every pair of mirrored slots is symmetric about its guide vertex |
| GuideLines.StartOffset | WikiPrototypes/GuideLinesData.cs:84-88 | taken at the acute angle, the start corner's offset is never negative |
| GuideLines.EndOffset | WikiPrototypes/GuideLinesData.cs:90-94 | taken at the obtuse angle, the end corner's offset is never positive |
| GuideLines.Rotation | WikiPrototypes/GuideLinesData.cs:74-76 | the connectors' rotation is the angle to the x axis signed by the line's vertical direction, less a quarter turn, so it lies in [-3π/2, π/2] |
| GuideLines.AxisLine | WikiPrototypes/GuideLinesData.cs:88-96 | each end of the axis is the segment's end moved along the unit direction by exactly its distance, so both lie on the supporting line and the axis is the segment lengthened by the end distance and shortened by the start distance; a zero-length segment is its own axis |
| GuideLines.AxisAt | WikiPrototypes/GuideLinesData.cs:70-99 | one pass of SetSymmetryData: a non-negative start offset, a non-positive end offset, and each axis end moved from the segment end along the unit direction by exactly the offset the pass records |
| GuideLines.Axes | WikiPrototypes/GuideLinesData.cs:68-100 | every segment's axis lies on its supporting line, has offsets of the right signs, and has each end moved from the segment's end by exactly its recorded offset |
| GuideLines.Data | WikiPrototypes/GuideLinesData.cs:16-30 | the constructor keeps the guide lines, sizes the contour array 2n + 2 and every other array n, and records signs in {-1, 0, 1} with 0 last |
| GuideLines.DataOffsets | WikiPrototypes/GuideLinesData.cs:84-99 | the offsets the narrow part reads have the right signs, and symmetryLines[i] starts at guide segment i's start moved along its unit direction by offsetsAtStart[i] and ends at its end moved by offsetsAtEnd[i] |
| Corners.CapOf | WikiPrototypes/IrregularSidePartBuilder.cs:81-92 | the first segment gets the start cap, and the last one the end cap only when it is not also the first |
| Corners.CapsOverGuide | WikiPrototypes/IrregularSidePartBuilder.cs:81-92 | a guide gets exactly one start cap, and one end cap only when it has at least two segments |
| Corners.CornerPair | WikiPrototypes/IrregularSidePartBuilder.cs:99-111 | both corner lines start at their contour points and move by the shift; the line on the inner side of the turn is also extended, and a straight joint extends neither |
| Corners.StartLines | WikiPrototypes/IrregularSidePartBuilder.cs:94-112 | segment i > 0 draws two lines, from its previous joint's right and left contour points; the first segment draws none |
| Corners.EndLines | WikiPrototypes/IrregularSidePartBuilder.cs:114-132 | segment i < n - 1 draws two lines, from its end joint's left and right contour points; the last segment draws none |
| Corners.CornerLinesMirrored | WikiPrototypes/IrregularSidePartBuilder.cs:94-132 | the two lines at each end of a segment start at points mirrored about the joint |
| Corners.CornerLinesOverGuide | WikiPrototypes/IrregularSidePartBuilder.cs:94-132 | a guide of n segments draws 4(n - 1) corner lines, four at each interior joint |
| Corners.CornerMidpoints | WikiPrototypes/IrregularWallBlueprint.cs:389-415 | the corner's end holes sit at the midpoint of the two line starts, which is the guide joint itself |
| SideBuilder.SideLayoutFits | WikiPrototypes/IrregularSidePartBuilder.cs:49-59 | an axis of zero length gets no modules, so placing a module never divides by zero |
| SideBuilder.SegmentPieces | WikiPrototypes/IrregularSidePartBuilder.cs:16-133 | a segment gets a cap exactly when it is first or last, and it draws two corner lines per interior joint it touches |
| SideBuilder.CapCurve | WikiPrototypes/IrregularSidePartBuilder.cs:81-92 | a cap is one end connector, and no cap is none |
| SideBuilder.ModulePieces | WikiPrototypes/IrregularSidePartBuilder.cs:48-74 | an axis of zero length gets no connectors and no holes, and an axis without B modules gets no holes |
| SideBuilder.ToConnect | WikiPrototypes/IrregularSidePartBuilder.cs:60-132 | a segment adds to the outline its module connectors first, then its cap, then one curve per corner line, and nothing else |
| SideBuilder.Segments | WikiPrototypes/IrregularSidePartBuilder.cs:16-133 | the loop visits every guide segment once, in order, each with the guide's contour points |
| SideBuilder.GetShapes | WikiPrototypes/IrregularSidePartBuilder.cs:9-139 | the output is every segment's holes in segment order, followed by the join of every segment's outline curves |
| SideBuilder.SegmentsBefore | WikiPrototypes/IrregularSidePartBuilder.cs:16-133 | after m segments the outline list holds their module connectors, one cap per capped segment among them and their corner lines, and nothing else |
| SideBuilder.OutlineCurves | WikiPrototypes/IrregularSidePartBuilder.cs:76-135 | the curves joined into the outline are the module connectors, a cap at each end of the polyline (only the start cap for one segment) and four corner lines per interior joint |
| Irregular.IrregularLayoutFits | WikiPrototypes/IrregularWallBlueprint.cs:248-262 | an axis of zero length gets no modules, so the division by the free space never divides by zero |
| Irregular.NarrowModules | WikiPrototypes/IrregularWallBlueprint.cs:258-279 | an axis without modules adds no connectors and no holes, and one without B modules adds no holes |
| Irregular.NarrowSplitters | WikiPrototypes/IrregularWallBlueprint.cs:281-295 | one split curve per chosen parameter |
| Irregular.NarrowCap | WikiPrototypes/IrregularWallBlueprint.cs:351-368 | exactly the capped segments (the first and the last) add end-connector curves; an uncapped segment adds neither connector curves nor holes |
| Irregular.CornerHoles | WikiPrototypes/IrregularWallBlueprint.cs:389-391 | a segment end without corner lines gets no end holes |
| Irregular.NarrowLine | WikiPrototypes/IrregularWallBlueprint.cs:228-416 | guide line i adds its module connectors first, then one cap curve when it is the first or last line, then two corner lines per interior joint it touches; its holes start with the B-module holes; it has one split curve per split parameter chosen on its axis |
| Irregular.JoinLine | WikiPrototypes/IrregularWallBlueprint.cs:228-416 | a line's outline curves are its module connectors, cap curves and one per corner line, modules first; its holes start with the module holes |
| Irregular.NarrowLines | WikiPrototypes/IrregularWallBlueprint.cs:226-416 | the narrow loop visits every guide line once, in order |
| Irregular.SolveNarrowPart | WikiPrototypes/IrregularWallBlueprint.cs:213-422 | the narrow parts are numbered from index, carry no mills, nothing goes loose, and every hole of every guide line ends in one part or is left over |
| Irregular.ContourLines | WikiPrototypes/IrregularWallBlueprint.cs:118-129 | 2n contour lines: line i runs along the left of segment i, line n + i along its right, and consecutive lines on one side meet |
| Irregular.ContourLinesMirrored | WikiPrototypes/IrregularWallBlueprint.cs:118-129 | the two contour lines of a segment are mirror images about the guide, endpoint by endpoint |
| Irregular.WideOffsets | WikiPrototypes/IrregularWallBlueprint.cs:142-151 | the start offset is non-negative, and start offset, axis and end offset add up to the contour line's length |
| Irregular.WideModules | WikiPrototypes/IrregularWallBlueprint.cs:168-183 | a wide part without modules adds no connectors, holes or mills, and one without B modules adds no holes |
| Irregular.WideLine | WikiPrototypes/IrregularWallBlueprint.cs:131-197 | a wide part's split loop ends whenever the maximum part length is at least 60 |
| Irregular.GuideIndex | WikiPrototypes/IrregularWallBlueprint.cs:202-203 | the signed guide index is never 0, is at most n in magnitude, and is positive exactly on the left side |
| Irregular.AddLine | WikiPrototypes/IrregularWallBlueprint.cs:199-209 | a contour line's pass appends its parts and loose mills after those before, and appends one guide index and one position (posX, 0, 0) per part, all equal, leaving the earlier entries unchanged |
| Irregular.AddLineKeepsLockStep | WikiPrototypes/IrregularWallBlueprint.cs:199-209 | a contour line's pass keeps the branch, guide-index and position lists in lock-step with the parts, numbered on from the others |
| Irregular.LinePass | WikiPrototypes/IrregularWallBlueprint.cs:199-209 | each contour line adds at least one part and keeps the lists in lock-step |
| Irregular.SolveWideFrom | WikiPrototypes/IrregularWallBlueprint.cs:131-210 | the remaining contour lines add at least one part each, keep the lists in lock-step, and always finish when the maximum part length is at least 60 |
| Irregular.SolveWidePart | WikiPrototypes/IrregularWallBlueprint.cs:108-211 | the wide parts are numbered on from index, at least two per guide line, each with a non-zero guide index of magnitude at most n |
| Irregular.Assemble | WikiPrototypes/IrregularWallBlueprint.cs:29-51 | narrow parts numbered from 0 and wide parts numbered from the narrow count make a solved blueprint |
| Irregular.SolveNarrow | WikiPrototypes/IrregularWallBlueprint.cs:49 | the narrow part produces at least one part, numbered from 0 |
| Irregular.Solve | WikiPrototypes/IrregularWallBlueprint.cs:47-50 | a guide of n lines gives a solved blueprint (two contiguous blocks, guide indexes in range), always when the maximum part length is at least 60 |
| Irregular.NewData | WikiPrototypes/IrregularWallBlueprint.cs:47 | the guide-line data is well formed and keeps the guide lines |
| Irregular.Build | WikiPrototypes/IrregularWallBlueprint.cs:29-51 | no guide or a single guide line leaves every output empty; otherwise the blueprint is solved, and it always exists when the maximum part length is at least 60 |
| Volume.Decode | WikiPrototypes/IrregularWallVolume.cs:74-82 | a positive guide index g names line g - 1, a negative one line -g - 1, and 0 gives 0 |
| Volume.DecodeEncode | WikiPrototypes/IrregularWallVolume.cs:74-82 | decoding the blueprint's encoding gives back contour line i's guide line, i mod n, with the side in the sign |
| Volume.DecodeInRange | WikiPrototypes/IrregularWallVolume.cs:84-85 | the range check keeps exactly the indexes of magnitude at most n, so it never drops one the blueprint wrote |
| Volume.DeviationSignOf | WikiPrototypes/IrregularWallVolume.cs:97 | the turn sign is 0 for the first line and the previous joint's sign otherwise, always in bounds |
| Volume.WideEntry | WikiPrototypes/IrregularWallVolume.cs:72-111 | a wide entry is placed exactly when its decoded guide line is in range, on its own branch; the placed shape records that decoded line, the side from the index's sign, the previous joint's turn sign, the line's start offset and the entry's blueprint position |
| Volume.KeptAll | WikiPrototypes/IrregularWallVolume.cs:72-111 | for a solved blueprint no wide entry is skipped, and entry j uses branch narrowCount + j |
| Volume.NarrowShapes | WikiPrototypes/IrregularWallVolume.cs:47-59 | each narrow branch is placed twice, right then left, on an existing narrow branch |
| Volume.WideShapes | WikiPrototypes/IrregularWallVolume.cs:61-111 | the wide entries are placed in order, skipping those out of range, each on an existing wide branch |
| Volume.Shapes | WikiPrototypes/IrregularWallVolume.cs:39-113 | there is no result (the source throws) exactly when the blueprint has no guide lines or only one; otherwise the narrow pairs come first, then the kept wide entries, and every shape uses an existing branch's raw solid |
| Volume.ShapeCount | WikiPrototypes/IrregularWallVolume.cs:47-111 | a solved blueprint gives two solids per narrow part and one per wide part |
| Straight.NarrowPieces | WikiPrototypes/StraightWallBlueprint.cs:58-85 | the narrow part has no mills |
| Straight.WidePieces | WikiPrototypes/StraightWallBlueprint.cs:104-143 | the wide part starts with the lower end connector at 0 and the upper one at the length, filling the rest, with a hole when the last module is an A; it has no hole without B modules; its mills start with the lower then the upper end mill |
| Straight.ModuleMills | WikiPrototypes/StraightWallBlueprint.cs:124-142 | a wall without modules adds no module mills |
| Straight.SplittersAt | WikiPrototypes/StraightWallBlueprint.cs:89-99 | one splitter curve per position, and none when the loop never ends |
| Straight.SplitAlong | WikiPrototypes/StraightWallBlueprint.cs:143-157 | joined and cut at a finite run, a part gives one piece more than there are splitters, numbered consecutively, with holes and mills conserved |
| Straight.SolveNarrowPart | WikiPrototypes/StraightWallBlueprint.cs:56-102 | the narrow part gives one piece more than the narrow progression has positions, numbered from index, with every hole conserved; always when the maximum part length is at least 60 |
| Straight.SolveWidePart | WikiPrototypes/StraightWallBlueprint.cs:104-158 | the wide part gives one piece more than the wide progression has positions, numbered from index, with every mill placed, loose or left over |
| Straight.TransversalParts | WikiPrototypes/StraightWallBlueprint.cs:35-54 | there is one transversal part per B module, level with it, each its own numbered branch with no holes or mills |
| Straight.PartIndexesBlock | WikiPrototypes/StraightWallBlueprint.cs:283 | parts numbered on from first make a contiguous block with their own index list |
| Straight.Build | WikiPrototypes/StraightWallBlueprint.cs:20-33 | narrow, wide and transversal parts form three contiguous blocks from 0, with their counts fixed by the two progressions and the B-module count |
| StraightWall.SplitBranches | WikiPrototypes/StraightWall.cs:190-296 | without splitters the one branch holds the contour alone; otherwise there is one branch per piece, each its outline followed by its share of the holes |
| StraightWall.BranchHole | WikiPrototypes/StraightWall.cs:269-293 | a hole in a branch came from the pool, lies inside that branch's outline, and lies inside no earlier outline |
| StraightWall.SolveNarrowPart | WikiPrototypes/StraightWall.cs:95-141 | one branch more than the narrow progression has positions, none empty |
| StraightWall.WideHoles | WikiPrototypes/StraightWall.cs:165-173 | the wide part's hole pool ends with the wide contour itself |
| StraightWall.SolveWidePart | WikiPrototypes/StraightWall.cs:143-188 | one branch more than the wide progression has positions, none empty |
| StraightWall.Consume | WikiPrototypes/StraightWall.cs:52-66 | every branch is read back as its outline and its holes, and the plan rebuilds the branch |
| StraightWall.SolveInstance | WikiPrototypes/StraightWall.cs:34-75 | a missing length is 120 and a missing maximum part length 250, both raised to 60; the tree holds the narrow then the wide branches, and the component reads back exactly that many plans, each rebuilding its branch |
| Wall.ModuleYs | WikiPrototypes/Wall.cs:72-76 | module i sits at y = 60i, one per loop pass |
| Wall.Modules | WikiPrototypes/Wall.cs:72 | the module count is the number of whole 60-unit modules in the length |
| Wall.Joints | WikiPrototypes/Wall.cs:78 | the joint count is the number of modules with 30 units of wall beyond them |
| Wall.JointsOfModules | WikiPrototypes/Wall.cs:150-153 | there is one joint fewer than modules, or as many when the length reaches 30 past the last module's start |
| Wall.FrontCurves | WikiPrototypes/Wall.cs:59-95 | the outer cut-outs are the end cut-outs, then a first-kind connector module at y = 60i for each of the floor(L / 60) modules, then a second-kind module at each joint; the outline is the first outer cut-out, missing only when there is none; the inner cut-outs are the middle cut-outs of every joint |
| Wall.FrontModulesFit | WikiPrototypes/Wall.cs:72-83 | every first-kind connector module, at y = 60i, ends within the wall (y + 60 <= length), and every second-kind module with its middle cut-out has at least 90 units of wall from its y onwards |
| Wall.SideRest | WikiPrototypes/Wall.cs:122 | the side's rest lies in [-20, 40) |
| Wall.SideCutOuts | WikiPrototypes/Wall.cs:106-130 | four end notches, one connector module per whole module, and, when the rest is at least 10, two notches centred between the last module and the far margin |
| Wall.EndPerforations | WikiPrototypes/Wall.cs:140-146 | four end perforations: a pair at y = 5.24 and a pair at 5.24 before the far end, each pair the same two cut-offs |
| Wall.JointPerforations | WikiPrototypes/Wall.cs:155-168 | each perforated joint gets three perforations |
| Wall.SidePerforations | WikiPrototypes/Wall.cs:138-171 | the four end perforations, then three for joint j at y = 60(j + 1), for exactly the joints with 30 units of wall beyond them |
| Wall.SideCurves | WikiPrototypes/Wall.cs:97-172 | the side outline is the rectangle less its cut-outs, with one set of perforations per joint |
| Wall.SolveInstance | WikiPrototypes/Wall.cs:29-57 | a missing length is 120 and a missing flag false; output 0 holds the front and side outlines and output 1 only the front's inner cut-outs |
| Components.IrregularBlueprint | WikiPrototypes/IrregularWallBlueprint_Component.cs:32-58 | no curve gives no output; otherwise the guide is read at the clamped maximum part length and a guide of two or more lines gives a solved blueprint |
| Components.StraightBlueprint | WikiPrototypes/StraightWallBlueprint_Component.cs:30-54 | the clamped inputs always give a blueprint of three contiguous blocks, with one transversal part per B module |

## Left out

- GetGuideLines (IrregularWallBlueprint.cs:53-106) reads the curve's plane and polyline and transforms it to the XY plane. It is the parameter `guideLinesOf` of `Components.IrregularBlueprint`, and `Irregular.Build` takes its result.
- RhinoCommon geometry is uninterpreted: lengths, angles, Math.Tan and Math.Cos, intersection, splitting, joining, boolean operations, containment and translation. The only trigonometric facts assumed are the signs of the cosine on [0, π] (`CosineSigns`).
- The part builders (PartSectionBuilder, WidePartBuilder, NarrowPartBuilder, IrregularNarrowPartBuilder, TransversalPartBuilder, ConnectorBuilder, GeometryHelper) are `Shape` values. Their silhouettes are not modelled.
- Floating point: doubles are exact reals, so rounding at the floor boundaries, NaN and infinities are not modelled. Math.PI is read as exact π, whereas in doubles Math.Cos(Math.PI / 2) is about 6.1e-17; an end offset at a right angle can therefore be slightly positive in the program, and `CosineSigns` idealises this away. A split loop whose bound would be +Infinity (a step of 0) is `Unending`, and the operations that run it return None.
- Grasshopper data trees: a part's branch is its index. `HalfMills.AddRange(mills)` without a path is kept as the list `looseMills`; which branch Grasshopper then uses is not modelled.
- Exceptions from indexing RhinoCommon results are not modelled: `Curve.Split(...)[1]` or `JoinCurves(...)[0]` on too short an array, `outerCutOffs[0]` on an empty list (modelled as no outline), and `CreateBooleanDifference(...)[0]`. The kernel's split and join always return two pieces and one curve.
- Irregular.WideOffsets: the source divides the contour line's direction by its length, which is NaN for a zero-length line; the model uses Unitize, which leaves a zero vector unchanged.
- Irregular.SolveNarrow: states only the numbering. Hole conservation is stated on Irregular.SolveNarrowPart, which it calls.
- Irregular.NewData: states that the data is well formed and keeps the guide lines, not that it equals GuideLines.Data.
- Irregular.Solve: does not restate the hole and mill conservation of the parts it assembles; that is stated on Splitter.SplitPart and Irregular.SolveNarrowPart.
- Volume: the raw solids (Get3DShape, the extrusion, Parallel.Invoke) and the plane-to-plane transforms are not built. A placed shape records its branch and the numbers its transform depends on; a wide shape also records its blueprint position. The source throws on a blueprint with no guide lines or one (GuideLines[0] at IrregularWallVolume.cs:39, the missing guide data at :67); `Volume.Shapes` returns None there. The volume's operations assume a blueprint whose indexes are numbered as the irregular blueprint numbers them.
- The volume components, StraightWallVolume, CurveWall and the extension methods are not part of this model.
- The blueprint components' missing-input defaults are not modelled: an input that was never set keeps its default. The model takes the numbers as given. The Wall and StraightWall components' defaults are modelled.
- millingDiameter is clamped and passed on, but no modelled computation uses it.
- StraightWallBlueprint_Component.cs:49 passes four arguments to the two-argument StraightWallBlueprint constructor. The model calls the two-argument constructor with the clamped length and maximum part length.
- StraightWall.WideHoles: the wide contour is put into its own hole pool (StraightWall.cs:173). This is modelled as written.
- The irregular wall produces no transversal parts, so its transversal index list stays empty.

## Findings

| source | as written | input that shows it | evidently intended | confidence | as-written member | corrected member |
|---|---|---|---|---|---|---|
| WikiPrototypes/IrregularWallBlueprint.cs:463-483 | the candidate left behind is archived when the loop index is past 0 (`i > 0`) | splitter 0 misses the contour entirely and is skipped, and splitter 1 crosses it twice: candidate B, still the uncut contour, is archived as a part, ahead of the two pieces, and takes every hole inside it first | archive only once an earlier splitter has cut, giving one part per cut plus one | medium, not executed | Splitter.MissedFirstSplitterKeepsContour | Splitter.SplitContours |
| WikiPrototypes/IrregularWallBlueprint.cs:511-512 | both final candidates are always output as parts | the only splitter misses the contour and is skipped: the uncut contour is output twice, at index and index + 1 | output the contour once when no splitter cut it | medium, not executed | Splitter.MissedOnlySplitterDuplicatesContour | Splitter.SplitContours |

The two straight blueprints never skip a splitter, and for them the loop as written and the intended loop agree (Splitter.SplitContoursAgree). Splitter.SplitPart, and with it every blueprint, cuts with the loop as written; Splitter.SplitContours is the corrected loop, with its part count proved.
