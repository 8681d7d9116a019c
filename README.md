# Heart-rate graph of the emergency watch app

The watch app shows a mocked patient's heart-rate history as a red polyline.
The routine `HeartRateGraph` takes the list of samples (beats per minute) and
the canvas size. It returns early on an empty list. Otherwise it builds a
`Path` with one vertex per sample: `moveTo` for the first and `lineTo` for the
rest. Vertex `i` sits at `x = i * stepX`, with `stepX = width / (n - 1)`, and at
`y = (1 - (v - 50) / (190 - 50)) * height`, so 190 bpm is on the top edge and
50 bpm on the bottom edge. Nothing is clamped.

The routine exists twice. The copy in `Screen.kt` guards `stepX` for a
one-sample history, and this is the copy the app uses. The copy in
`Component.kt` divides by `size - 1` without a guard. Beside the graph, the
dashboard draws a preview from `takeLast(5)` of the history. The vitals screen
shows `last()` as the current rate and `maxOrNull()` as "Highest".

Modules:

- `Options`: the nullable result of `maxOrNull` and the "nothing drawn" outcome.
- `Canvas`: a `Path` class that records `moveTo`/`lineTo` commands in order.
  It stands in for the UI toolkit's path object.
- `Waveform`: the reference geometry, written as closed forms. `XAt` spreads
  the vertices evenly from 0 to `width`, and `ProjectY` interpolates linearly
  from 190 (top) to 50 (bottom). `Polyline` and `Graph` give the vertex
  sequence, and lemmas state its properties.
- `Screen`: the guarded routine, written as a loop over a `Path` object and
  proved to return `Graph`, plus the history reductions of the two screens.
- `Component`: the unguarded routine, proved to return the same `Graph` on
  every history except a one-sample one. The module also shows where the two
  copies part.

Both methods specify their output as a function of their inputs. So two calls
with the same arguments draw the same path.

## Model

| member | source | states |
|---|---|---|
| Waveform.SourceYFormula | EmergencyApp/app/src/main/java/com/example/emergencyapp/presentation/Screen.kt:39-40 | the routine's normalised-y formula equals linear interpolation between 190 on the top edge and 50 on the bottom edge |
| Waveform.ScaleEnds | EmergencyApp/app/src/main/java/com/example/emergencyapp/presentation/Screen.kt:28-40 | a sample of 190 is drawn at y = 0 and a sample of 50 at y = height |
| Waveform.ProjectYAffine | EmergencyApp/app/src/main/java/com/example/emergencyapp/presentation/Screen.kt:39-40 | y is affine in the sample: the y difference of two samples is their bpm difference times height / 140, with the sign inverted |
| Waveform.ProjectYStrictlyDecreasing | EmergencyApp/app/src/main/java/com/example/emergencyapp/presentation/Screen.kt:39-40 | on a canvas of positive height, a higher sample gets a strictly smaller y (it is drawn higher up) |
| Waveform.ProjectYInRange | EmergencyApp/app/src/main/java/com/example/emergencyapp/presentation/Screen.kt:39-40 | on a canvas of non-negative height, zero included, samples in 50..190 land in 0..height |
| Waveform.ProjectYUnclamped | EmergencyApp/app/src/main/java/com/example/emergencyapp/presentation/Screen.kt:39-40 | no clamping: on a canvas of positive height, samples above 190 land above the top edge (y < 0) and samples below 50 below the bottom edge (y > height) |
| Waveform.PolylineShape | EmergencyApp/app/src/main/java/com/example/emergencyapp/presentation/Screen.kt:37-43 | one vertex per sample in input order; vertex 0 is a move and every later vertex a line; vertex k has the reference x of position k and the y of sample k |
| Waveform.GraphEmptyIff | EmergencyApp/app/src/main/java/com/example/emergencyapp/presentation/Screen.kt:24 | nothing is drawn exactly when the history is empty |
| Waveform.SingleSample | EmergencyApp/app/src/main/java/com/example/emergencyapp/presentation/Screen.kt:34-38 | a one-sample history draws a single move to x = 0 at the sample's height |
| Waveform.XAtIsMultipleOfStep | EmergencyApp/app/src/main/java/com/example/emergencyapp/presentation/Screen.kt:35-38 | for n > 1, vertex k lies at k times width / (n - 1) |
| Waveform.XAtMonotone | EmergencyApp/app/src/main/java/com/example/emergencyapp/presentation/Screen.kt:35-38 | a later vertex is never to the left of an earlier one on a canvas of non-negative width, and strictly to its right on a canvas of positive width |
| Waveform.XEndpoints | EmergencyApp/app/src/main/java/com/example/emergencyapp/presentation/Screen.kt:35-38 | for n > 1 the first vertex is at x = 0 and the last at x = width |
| Waveform.XMonotone | EmergencyApp/app/src/main/java/com/example/emergencyapp/presentation/Screen.kt:35-38 | on a canvas of non-negative width x never decreases along the path, and on a canvas of positive width it strictly increases |
| Waveform.WorkedExamples | EmergencyApp/app/src/main/java/com/example/emergencyapp/presentation/Screen.kt:35-42 | [70, 190] on 100x100 gives (0, 600/7), (100, 0); [50, 120, 190] on 200x100 gives (0, 100), (100, 50), (200, 0) |
| Screen.StepX | EmergencyApp/app/src/main/java/com/example/emergencyapp/presentation/Screen.kt:35 | the step is 0 for at most one sample; otherwise n - 1 steps add up to exactly the width; it is non-negative on a canvas of non-negative width |
| Screen.StepXPlacesVertex | EmergencyApp/app/src/main/java/com/example/emergencyapp/presentation/Screen.kt:35-38 | `index * stepX` is the reference x of every vertex, for every history length, one sample included |
| Screen.HeartRateGraph | EmergencyApp/app/src/main/java/com/example/emergencyapp/presentation/Screen.kt:23-52 | the loop over the samples builds exactly the reference polyline, and nothing is drawn for an empty history |
| Screen.TakeLast | EmergencyApp/app/src/main/java/com/example/emergencyapp/presentation/Screen.kt:180 | `takeLast(n)` keeps min(n, size) elements, which are the last ones of the list in their original order |
| Screen.PreviewGraph | EmergencyApp/app/src/main/java/com/example/emergencyapp/presentation/Screen.kt:179-182 | the dashboard preview draws nothing only for an empty history; otherwise it has min(5, n) vertices and its last vertex plots the newest sample |
| Screen.MaxOrNull | EmergencyApp/app/src/main/java/com/example/emergencyapp/presentation/Screen.kt:306 | `maxOrNull()` is null exactly for an empty list; otherwise it is an element of the list and no element is larger |
| Screen.VitalsReadout | EmergencyApp/app/src/main/java/com/example/emergencyapp/presentation/Screen.kt:300-309 | for a non-empty history the current rate (`last()`) is the newest sample; "Highest" (`maxOrNull()`) is present, is a sample of the history, bounds every sample and is at least the current rate |
| Screen.MockPatientScreens | EmergencyApp/Patient.gradle.kt:25 | the mock history previews as [90, 85, 180, 160, 110], reads current 110 and highest 180, and plots 9 vertices |
| Component.StepX | EmergencyApp/app/src/main/java/com/example/emergencyapp/presentation/Component.kt:26 | the unguarded `width / (size - 1)`: defined for every length except 1, and there `size - 1` steps add up to exactly the width |
| Component.AgreesWithScreenStep | EmergencyApp/app/src/main/java/com/example/emergencyapp/presentation/Component.kt:26 | for two or more samples the unguarded step equals the guarded step of the other copy |
| Component.SingleSampleReachesZeroDivisor | EmergencyApp/app/src/main/java/com/example/emergencyapp/presentation/Component.kt:16-26 | a one-sample history gets past the emptiness check, and the divisor `size - 1` of its step is then zero; the guarded copy's outcome for the same input is `Waveform.SingleSample` |
| Component.HeartRateGraph | EmergencyApp/app/src/main/java/com/example/emergencyapp/presentation/Component.kt:15-44 | on every history except a one-sample one, the loop builds exactly the reference polyline, the same result as `Screen.HeartRateGraph`, and nothing is drawn for an empty history |

## Left out

- Component.HeartRateGraph: a one-sample history is excluded by its requires. The Kotlin code does not fail there: Float division by zero gives Infinity, or NaN on a zero-width canvas, so the single move gets a NaN x coordinate.
- Float arithmetic: coordinates are exact reals. IEEE rounding, Infinity and NaN are not modelled.
- Fixed scale: the plotted range is the constants 190 and 50 from the code. No configurable range and no invalid-range error exist in the code, so none are modelled.
- Rendering: the `drawPath` call, colour and stroke width are not modelled. The model stops at the command sequence handed to the renderer, which is the `Some` value of each method's result.
- `Canvas.Path` records commands only. The toolkit path's internal geometry is not visible here.
- Declarative UI layout of all four screens (columns, chips, texts, spacing, dp-to-pixel conversion) is not modelled, because it computes nothing.
- The axis labels "190" and "70" are fixed texts, not computed, so they are not modelled. The plotted bottom of the scale is 50.
- Navigation between the screens (`MainActivity.kt`) belongs to the navigation library, which is not part of this model.
- The patient record is plain data. Only its heart-rate history is used, as a concrete example.
- Screen.VitalsReadout: requires a non-empty history, because Kotlin's `last()` throws on an empty list. The exception itself is not modelled.

## Findings

| source | as written | input that shows it | evidently intended | confidence | as-written member | corrected member |
|---|---|---|---|---|---|---|
| EmergencyApp/app/src/main/java/com/example/emergencyapp/presentation/Component.kt:26 | `stepX = width / (dataPoints.size - 1)` without a guard | a history of exactly one sample: it passes the emptiness check at line 16 and divides by zero, so in Float the single vertex gets a NaN x | step 0 for a single sample, which places it on the left edge, as the guarded copy at Screen.kt:35 does; its single move to x = 0 is `Waveform.SingleSample` | not executed; this copy has no caller in the app | Component.SingleSampleReachesZeroDivisor | Screen.StepX |
