# Lawn estimator core in Dafny

A model of the logic inside the lawn-care estimate tool, in its two app variants
(`src/App.jsx` and `src/App1.jsx`):

- **Measurement session** (`src/App.jsx`, `LawnCalculator`). Clicking the map in
  draw mode adds a vertex to the active path. "Finish Section" commits the path
  once it has three points. "Clear Map" resets everything. The total area is
  derived from the shapes (`calculatedArea`). The model is the class
  `LawnCalculator.Session`, plus pure functions for the area.
- **Area aggregation** in both variants. Each path's geodesic area in m² is
  multiplied by 10.7639, rounded with `Math.round`, and the rounded values are
  summed. App.jsx skips paths with fewer than three points. App1.jsx skips
  snapshot features whose type is not `"Polygon"`. App1.jsx also moves the area
  label to the first vertex of the last polygon. The model is
  `DrawCalculator.MapCalculator`, whose `HandleDrawChange` runs the `forEach`
  loop.
- **Pricing.** App.jsx floors the lawn line at $50 only when mowing is the only
  active service. App1.jsx always floors it, whatever the custom fee is. Each
  rule is modelled on its own (`AppEstimate`, `App1Estimate`).
- **Saving.** The guard: App.jsx refuses to save when no area is measured
  and mowing is on; App1.jsx refuses whenever no area is measured. The row that
  is inserted: inactive services store 0, or `null` for App1.jsx's label.
  Saving then resets the form.
- **PDF file name.** `(name || "Customer").trim().replace(/[^a-z0-9]/gi, "_")`
  plus a prefix and `.pdf` (`SafeNames`).
- **Owner component of App.jsx** (`AppEstimate.EstimateApp`). It holds the
  owner state and the session, and runs two React effects: one copies
  `calculatedArea` into `totalArea`, the other copies the computed `finalTotal`
  into `pricingData`. React re-runs an effect only when its dependency value has
  changed, and the class models that.

Modelling choices:

- The maps library's `spherical.computeArea` is a parameter of type
  `Geometry.AreaFn`. The only thing known about it is that it is non-negative.
  The geometry library not being loaded is `None`.
- `Math.round(x)` is `floor(x + 1/2)`.
- Prices typed into number inputs are parsed reals. `None` stands for the empty
  string that an input holds once it is cleared.
- JavaScript strings are UTF-16, so a character outside the Basic Multilingual
  Plane becomes two underscores, and lengths are counted in code units
  (`SafeNames.Utf16Length`).

Behaviour of the code worth knowing when reading the model:

- Switching to edit mode keeps the active path (src/App.jsx:831).
- `finishShape` does not check the mode; only the button's visibility does
  (src/App.jsx:822).
- App1.jsx has no three-vertex guard.

## Model

| member | source | states |
|---|---|---|
| `Geometry.JsRound` | src/App.jsx:781 | `Math.round`: the result is the one integer in (x − ½, x + ½], so halves round up |
| `Geometry.SqFt` | src/App.jsx:781 | one path's area in ft² is non-negative and within ½ of area × 10.7639 |
| `LawnCalculator.SumSqFt` | src/App.jsx:776-782 | the `reduce` total is never negative |
| `LawnCalculator.CalculatedArea` | src/App.jsx:772-783 | `calculatedArea` is 0 without the geometry library and never negative |
| `LawnCalculator.SumSqFtAppend` | src/App.jsx:776-782 | the total over a concatenation is the sum of the two totals |
| `LawnCalculator.CompletePaths` | src/App.jsx:777 | a path is kept exactly when it is one of the given paths and has at least three vertices; never more paths than given |
| `LawnCalculator.CompletePathsAppend` | src/App.jsx:776-777 | the filter keeps order: filtering two lists side by side is filtering each, and a single path is kept exactly when it is complete |
| `LawnCalculator.CompletePathsMultiplicity` | src/App.jsx:777 | each complete path is kept as often as it occurs, an incomplete one never |
| `LawnCalculator.IncompletePathsSkipped` | src/App.jsx:777 | paths with fewer than three points contribute nothing: the total equals the total over the complete paths |
| `LawnCalculator.SumSqFtOrderIndependent` | src/App.jsx:776-782 | any permutation of the paths gives the same total |
| `LawnCalculator.PerPathRoundingError` | src/App.jsx:778-781 | rounding each path separately keeps the total within ½ ft² per counted path of the exact total |
| `LawnCalculator.CalculatedAreaSplit` | src/App.jsx:774-782 | about `AllPaths` and `CalculatedArea`: the total is the finished polygons' sum plus the active path's own contribution, so the non-empty check makes no difference |
| `LawnCalculator.FinishKeepsArea` | src/App.jsx:761-762 | moving a path of three or more points into the finished list keeps the total |
| `LawnCalculator.Session.Area` | src/App.jsx:772-783 | the session's derived total is never negative |
| `LawnCalculator.Session.constructor` | src/App.jsx:750-752 | a new session has no shapes and is in view mode |
| `LawnCalculator.FinishedPolygonsAllCount` | src/App.jsx:756-762 | when every polygon has at least three vertices, none of them is skipped |
| `LawnCalculator.Session.AreaOfValidSession` | src/App.jsx:756-783 | in a session whose polygons all passed `finishShape`'s check, every polygon counts: the total is their rounded sum plus the active path's contribution |
| `LawnCalculator.Session.SetMode` | src/App.jsx:814-834 | the Draw and Edit buttons set that mode and change nothing else |
| `LawnCalculator.Session.MapClick` | src/App.jsx:849-855 | in draw mode the point is appended to the end of the active path; otherwise nothing changes; the polygons and the mode never change |
| `LawnCalculator.Session.FinishShape` | src/App.jsx:756-763 | it alerts exactly when there are fewer than 3 points, and then changes nothing; otherwise the path becomes the last polygon, earlier ones are kept and the active path is emptied; the mode is kept and the area is unchanged |
| `LawnCalculator.Session.HandleClearAll` | src/App.jsx:765-770 | from any state: no polygons, no active path, view mode, total area 0 |
| `DrawCalculator.OuterPath` | src/App1.jsx:762-765 | the outer ring as `{lat, lng}` points, with longitude and latitude swapped back |
| `DrawCalculator.SnapshotSqFt` | src/App1.jsx:759-768 | the `forEach` total is never negative |
| `DrawCalculator.SnapshotSqFtAppend` | src/App1.jsx:759-768 | the total over concatenated snapshots is the sum of the two totals |
| `DrawCalculator.NonPolygonIgnored` | src/App1.jsx:761 | a feature that is not a polygon, wherever it is, leaves the total unchanged |
| `DrawCalculator.LabelAtLastPolygon` | src/App1.jsx:769 | about `LastLabel`: the label ends on the first vertex of the last polygon in the snapshot |
| `DrawCalculator.LabelKeptWithoutPolygons` | src/App1.jsx:760-771 | with no polygon in the snapshot, the label stays where it was |
| `DrawCalculator.PolygonPaths` | src/App1.jsx:761-765 | a path is returned exactly when it is the outer path of one of the snapshot's polygons; never more paths than features |
| `DrawCalculator.PolygonPathsAppend` | src/App1.jsx:759-765 | the paths keep snapshot order: a single feature gives its outer path when it is a polygon and nothing otherwise, and two snapshots side by side give the first's paths followed by the second's |
| `DrawCalculator.AgreesWithSessionTotal` | src/App1.jsx:757-773 | when every ring has at least three positions, App1's total equals App.jsx's aggregation over the same polygons |
| `DrawCalculator.MapCalculator.constructor` | src/App1.jsx:699-706 | no label, zoom 14, nothing drawn or loaded |
| `DrawCalculator.MapCalculator.OnMapLoad` | src/App1.jsx:796-803 | the map reference is set |
| `DrawCalculator.MapCalculator.InitDraw` | src/App1.jsx:708-755 | the drawing library is running exactly when it already was, or the map is loaded and the geometry library is present; it starts once, with an empty store, and never before the map |
| `DrawCalculator.MapCalculator.HandleDrawChange` | src/App1.jsx:757-773 | total area = the snapshot's per-polygon rounded sum; the label = the first vertex of the last polygon, or unchanged |
| `DrawCalculator.MapCalculator.StoreChanged` | src/App1.jsx:775-776 | after a "finish" or "change" event, the total and the label follow the new snapshot |
| `DrawCalculator.MapCalculator.HandleClearAll` | src/App1.jsx:805-809 | the drawing is emptied once it has started; the total is 0 and the label is null |
| `DrawCalculator.MapCalculator.HandleZoomIn` | src/App1.jsx:834-842 | zoom goes up by exactly 1 only when the map is loaded and the zoom is below 21, otherwise it is unchanged; it never goes above 21 |
| `AppEstimate.LawnCost` | src/App.jsx:895-898 | with `OnlyMowing` for mowing as the sole service: at least area × rate; at least $50 when only mowing is active; equal to area × rate unless the floor applies |
| `AppEstimate.FinalTotal` | src/App.jsx:900-903 | 0 with no service active; with only mowing, it is the lawn cost and at least $50 |
| `AppEstimate.InactiveServicesIgnored` | src/App.jsx:900-903 | an inactive service's price does not change the total, and neither do the area and rate when mowing is off |
| `AppEstimate.BlankFeeCountsZero` | src/App.jsx:902-903 | blank fee fields count as 0 |
| `AppEstimate.FloorWaivedBesideFlatFee` | src/App.jsx:61-64 | area 0 with a $25 shrub fee totals $25, so the floor is waived; mowing only gives $50; 10,000 ft² gives $200 |
| `AppEstimate.BlankFeeStoredAsNaN` | src/App.jsx:649-651 | an active blank shrub fee is stored as NaN, although the saved total counted it as 0 |
| `AppEstimate.SaveRecordAsWritten` | src/App.jsx:636-656 | the row the code builds: refused exactly when area is 0 and mowing is on; customer, area and rate copied; 0 for an inactive service; an active fee is its price, or NaN exactly when the input was cleared; final price = stored `finalTotal` |
| `AppEstimate.SaveRecord` | src/App.jsx:636-656 | the corrected row of the NaN finding: the same guard and copied fields, but an active fee is stored as the total reads it, so every stored fee is a number |
| `AppEstimate.SaveRecordsAgree` | src/App.jsx:636-656 | the two rows are refused alike, and are equal unless an active fee was left blank |
| `AppEstimate.SavedRowAddsUp` | src/App.jsx:649-655 | with the total synced, the row's final price is the lawn line plus the stored fees |
| `AppEstimate.ResetRefusesSave` | src/App.jsx:66-77 | the reset state refuses a save, and its computed total is $50 while its stored total is 0 |
| `AppEstimate.FilePrefix` | src/App.jsx:144-147 | both prefixes use only file-name characters |
| `AppEstimate.PdfFileNameShape` | src/App.jsx:141-147 | about `PdfFileName`: the name uses only `[A-Za-z0-9_.]`, ends in `.pdf`, and gives back the safe name between prefix and extension |
| `AppEstimate.EstimateApp.constructor` | src/App.jsx:26-57 | the initial form state; the clear callback is not registered |
| `AppEstimate.EstimateApp.EditCustomer` | src/App.jsx:695-731 | typing into the customer inputs replaces the customer block and nothing else |
| `AppEstimate.EstimateApp.RegisterClear` | src/App1.jsx:811-815 | the session's clear function is registered, as App1.jsx does |
| `AppEstimate.EstimateApp.RenderArea` | src/App.jsx:785-787 | `totalArea` is set to `calculatedArea` only when that value changed since the last run |
| `AppEstimate.EstimateApp.RenderPricingAsWritten` | src/App.jsx:905-907 | the stored `finalTotal` is updated only when the computed value changed since the last run |
| `AppEstimate.EstimateApp.RenderPricing` | src/App.jsx:900-907 | after rendering, the stored total equals the computed total and is the effect's dependency; nothing else in the state changes |
| `AppEstimate.EstimateApp.ResetEverything` | src/App.jsx:66-77 | the form returns to its initial state; if the clear callback is registered, the map is cleared to view mode and the stored area and the map area agree; otherwise the session is untouched |
| `AppEstimate.EstimateApp.HandleSave` | src/App.jsx:634-664 | it returns the row `SaveRecordAsWritten` builds; after a successful insert the form is reset and the session is cleared exactly when the clear callback is registered, and untouched otherwise; a refused or failed save changes nothing |
| `AppEstimate.ResetLeavesShapes` | src/App.jsx:66-68 | as written: after a reset, the stored area is 0 but the map still measures 11 ft² |
| `AppEstimate.ResetClearsShapes` | src/App.jsx:765-770 | with the callback registered, both areas are 0 after a reset |
| `AppEstimate.StaleTotalAfterReset` | src/App.jsx:905-907 | as written: after a reset, a minimum-charge save with a name and address typed in stores final price 0 although $50 is owed |
| `AppEstimate.SyncedTotalAfterReset` | src/App.jsx:900-907 | with the total always re-stored, the same steps store $50 |
| `App1Estimate.LawnCost` | src/App1.jsx:924-925 | always at least $50 and at least area × rate; it equals one of the two |
| `App1Estimate.ExtraCost` | src/App1.jsx:926 | 0 when the fee is inactive, and 0 for a blank price |
| `App1Estimate.FinalTotal` | src/App1.jsx:926-927 | the lawn cost when the fee is inactive; minus the fee, it is always at least $50 |
| `App1Estimate.FloorKeptBesideFlatFee` | src/App1.jsx:924-927 | area 0 gives $50, and $75 with a $25 fee; 10,000 ft² gives $200 |
| `App1Estimate.LawnRowConsistent` | src/App1.jsx:323-340 | about `DetailCell` and `AmountCell`: the amount cell equals the calculator's lawn cost; "Minimum Charge" shows exactly when the amount is the $50 floor and not area × rate |
| `App1Estimate.BlankFeeStoredAsNaN` | src/App1.jsx:572-574 | an active fee with a cleared price is stored as NaN, although the total counted it as 0 |
| `App1Estimate.SaveRecordAsWritten` | src/App1.jsx:551-577 | the row the code builds: refused exactly when area is 0; customer, area and rate copied; an inactive fee stores a null label and 0; an active one its label and its price, or NaN exactly when the price was cleared; final price = stored `finalTotal` |
| `App1Estimate.SaveRecord` | src/App1.jsx:551-577 | the corrected row of the NaN finding: the same guard, copied fields and labels, but the fee is stored as the total reads it, so it is always a number |
| `App1Estimate.SaveRecordsAgree` | src/App1.jsx:551-577 | the two rows are refused alike, and are equal unless an active fee's price was cleared |
| `App1Estimate.SavedRowAddsUp` | src/App1.jsx:569-576 | with the total synced, the final price is the floored lawn line plus the stored fee, so at least $50 plus the fee |
| `App1Estimate.PricingEffectAsWritten` | src/App1.jsx:922-931 | the effect's dependency becomes the computed total; the stored total is updated, and then synced, only when that value changed; otherwise the state is unchanged |
| `App1Estimate.PricingEffect` | src/App1.jsx:922-931 | after rendering, the stored total equals the computed total and nothing else changes |
| `App1Estimate.StaleTotalAfterReset` | src/App1.jsx:929-931 | as written: after saving any lawn below the minimum, a reset, a name and address typed in and a next lawn below the minimum are saved with final price 0 although $50 is owed |
| `App1Estimate.SyncedTotalAfterReset` | src/App1.jsx:922-931 | with the total always re-stored, the next lawn below the minimum is saved at $50 |
| `App1Estimate.ResetEverything` | src/App1.jsx:48-58 | blank customer, area 0, rate 0.02, stored total 0, inactive fee with an empty label and price 0 |
| `App1Estimate.ResetRefusesSave` | src/App1.jsx:48-58 | after a reset a save is refused; the computed total is $50; resetting twice is the same as once |
| `App1Estimate.FilePrefix` | src/App1.jsx:135 | uses only file-name characters; starts with `S` for the internal copy and `C` otherwise |
| `App1Estimate.PdfFileNameShape` | src/App1.jsx:131-136 | about `PdfFileName`: only `[A-Za-z0-9_.]`, ends in `.pdf`, and the safe name can be read back |
| `App1Estimate.CopiesNamedApart` | src/App1.jsx:135 | the internal and the customer copy never get the same file name |
| `SafeNames.LeadingSpace` | src/App1.jsx:132 | the leading run of whitespace, and the first character after it is not whitespace |
| `SafeNames.TrailingSpace` | src/App1.jsx:132 | the trailing run of whitespace, and the character before it is not whitespace |
| `SafeNames.Trim` | src/App1.jsx:132 | empty exactly when the input is all whitespace; otherwise a middle slice that starts and ends with non-whitespace, with only whitespace dropped on either side |
| `SafeNames.Underscores` | src/App1.jsx:133 | n underscores |
| `SafeNames.Sanitize` | src/App1.jsx:133 | the length is the input's UTF-16 length, and every character is an ASCII letter, a digit or `_` |
| `SafeNames.SanitizeBmp` | src/App.jsx:141-143 | on single-code-unit text, position by position: letters and digits are kept, everything else becomes `_` |
| `SafeNames.SanitizeIdempotent` | src/App.jsx:141-143 | sanitising twice is the same as sanitising once |
| `SafeNames.DefaultNameTrimmed` | src/App.jsx:141-142 | `"Customer"` is unchanged by trim |
| `SafeNames.DefaultNameSanitized` | src/App.jsx:141-143 | `"Customer"` is unchanged by the replacement |
| `SafeNames.SafeName` | src/App.jsx:141-143 | an empty name gives `Customer`; otherwise the length equals the trimmed name's UTF-16 length; the alphabet is `[A-Za-z0-9_]` |
| `SafeNames.WhitespaceNameIsEmpty` | src/App1.jsx:131-133 | a non-empty name made only of whitespace gives an empty safe name, not `Customer` |
| `SafeNames.SafeNameKeepsAlnum` | src/App1.jsx:131-133 | for a plain trimmed name, the same length, and letters and digits are kept in place |
| `SafeNames.SafeNameIsFileNameSafe` | src/App.jsx:141-147 | a safe name is made only of file-name characters |
| `SafeNames.PdfNameShape` | src/App.jsx:144-147 | prefix + safe name + `.pdf` is file-name safe, and the safe name can be read back |
| `SafeNames.PdfNameAround` | src/App1.jsx:135 | the same, for any file-name-safe middle part |
| `SafeNames.FileNameSafeConcat` | src/App1.jsx:135 | concatenation keeps names file-name safe |
| `EstimateForm.PriceOrZero` | src/App.jsx:902-903 | `parseFloat(price \|\| 0)`: a blank price is 0 |
| `EstimateForm.ParseFloat` | src/App.jsx:649-654 | `parseFloat(price)`: NaN exactly for a blank price, otherwise the price |

## Findings

| source | as written | input that shows it | evidently intended | confidence | as-written member | corrected member |
|---|---|---|---|---|---|---|
| src/App.jsx:745 | App.jsx's `LawnCalculator` takes `onLoadClear` but never calls it, so `clearMapRef.current` stays null, and `resetEverything` (lines 66-67) never clears the map | draw one triangle and save: `totalArea` is 0, but the map still shows a shape measuring 11 ft², and the area effect does not re-run | the session registers its clear function, as src/App1.jsx:811-815 does, so a reset empties the map | high, not executed | `AppEstimate.ResetLeavesShapes` | `AppEstimate.EstimateApp.ResetEverything` |
| src/App.jsx:649-654 | an active shrub or clean-up fee is stored as `parseFloat(price)`, so a cleared input stores NaN, while `finalTotal` uses `parseFloat(price \|\| 0)` | shrubs active, shrub price cleared, 5,000 ft²: the row stores NaN (null) next to a total that counted the fee as 0 | store the fee the way the total counts it | medium, not executed | `AppEstimate.BlankFeeStoredAsNaN` | `AppEstimate.SavedRowAddsUp` |
| src/App1.jsx:572-574 | same as above for `customExtra.price` | fee active with its price cleared: `extra_price` is NaN | store `parseFloat(price \|\| 0)` | medium, not executed | `App1Estimate.BlankFeeStoredAsNaN` | `App1Estimate.SavedRowAddsUp` |
| src/App.jsx:905-907 | the effect that stores `finalTotal` runs only when the computed total changes, but `resetEverything` (line 73) sets the stored total to 0 | price at the $50 minimum, reset, then measure a lawn under 2,500 ft²: the computed total stays $50, the effect does not run, and the save stores final price 0 | the stored total always equals the computed total | high, not executed | `AppEstimate.StaleTotalAfterReset` | `AppEstimate.EstimateApp.RenderPricing` |
| src/App1.jsx:929-931 | the same effect in App1.jsx; since the floor always applies there, every save of a lawn below 2,500 ft² without a fee leaves its dependency at $50 | save a 1,000 ft² lawn, then measure a 1,000 ft² lawn and save: final price 0 | the stored total always equals the computed total | high, not executed | `App1Estimate.StaleTotalAfterReset` | `App1Estimate.PricingEffect` |

## Left out

- The maps, autocomplete and drawing libraries, and the geodesic area routine itself. They are foreign floating-point code. The area is a parameter that is only known to be non-negative.
- The drawing library's own select, drag and vertex-editing modes (src/App1.jsx:719-747). Their effect enters the model only as a new snapshot (`StoreChanged`). App.jsx's edit mode does no dragging. Its only effect is that clicks stop adding points.
- `DrawCalculator.MapCalculator.HandleDrawChange`: requires that every polygon feature has a non-empty outer ring, which the drawing library always produces. The source would throw on an empty ring.
- The autocomplete handlers (src/App.jsx:798-805, src/App1.jsx:817-832): they depend on the places service. App.jsx sets zoom 21 at once; App1.jsx does it after a 150 ms timer. Zoom changes made with map gestures are not modelled either; in App1.jsx the map's own `maxZoom: 21` option (src/App1.jsx:901) caps them.
- App1.jsx's owner component is not modelled as a class: its save, reset and pricing effect are pure functions on its state (`App1Estimate`), so the order of its effects is given by the lemmas that chain them, and only App.jsx's owner holds the session by reference.
- The browser's check of the `required` name and address inputs (src/App.jsx:693,701; src/App1.jsx:617,625), which runs before `handleSave` because the save button calls `requestSubmit()` (src/App.jsx:615; src/App1.jsx:531). `AppEstimate.EstimateApp.HandleSave` and both `SaveRecordAsWritten` functions do not check it. `EstimateForm.FormComplete` states the condition, and the saving scenarios fill in both fields before they save.
- The unused `billedLawnPrice` in App1.jsx's save (src/App1.jsx:555-557). It does not reach the row.
- PDF rendering (canvas capture, DOM cloning, hiding columns, the settle delay), the database insert and its error path (reduced to the `insertSucceeds` flag), alerts, the email function in netlify/functions/send-email.js, display formatting (`toFixed`, `toLocaleString`), CSS and layout.
- JavaScript coercions: rates and prices are numbers that have already been parsed. Junk input that parses to NaN in the total is not modelled. Floating-point rounding of area × rate is not modelled either; the model uses exact reals.
- `EstimateForm.PriceOrZero`: a price field holding the number 0, and one holding the empty string, both count as 0. They are told apart only in what the save stores.
