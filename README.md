# AI farmer assistant: a verified model of the app's screen logic

The app is a set of React Native screens for farmers. Most of its code is
layout. The logic that decides what a screen shows is small and exact, and
this project models it in Dafny and proves what it does:

- the market dashboard's parser, which turns the price service's pipe-delimited
  text table into row records, and the loading state around the request;
- the notification centre: recent and archived tabs, mark-as-read by id, and
  the icon chosen by a notification's type;
- the registration screen's local user list: the empty-field check, the
  duplicate-email check, and the append that is committed only after the
  storage write succeeds;
- the agronomic rules, each an if-chain over readings: fertilizer, crop
  rotation, seed variety, yield estimate, soil-health tier, the optimal-range
  match badge and the disease severity badge;
- the form, loading and result state of the screens that run those rules,
  including the hand-off of six soil readings from the soil input screen to
  the soil results screen;
- the crop-name and pest-name search filters over fixed lists;
- the hard-coded credential check of the two login screens;
- the QR scanner's one-scan-at-a-time guard.

Each screen file becomes one module. A screen whose handlers update state is
a `class` whose fields are the `useState` variables. Its methods are the
handlers, and their `modifies` clauses name the fields each handler sets.
Pure helpers become functions. Where a handler computes its answer by
reassigning a local (`let result = …`, `mockYield += …`), that step is an
imperative method, proved equal to a rule function, and the properties are
lemmas about the function.

How the platform is represented:

- **Numbers and parsing.** `parseFloat` is a parameter
  `parse: string -> Option<real>`, in which `None` is NaN (`JsNumber.Number`).
  The comparisons `<`, `>`, `<=` and `>=` are false whenever an operand is
  NaN. This matters on the screens that never check for NaN.
- **Delays.** A `setTimeout` callback is two steps. The handler stores what
  the callback captured in a `pending` field. A `TimerFires` method with
  `requires pending…` runs the callback.
- **Disabled buttons.** A button with `disabled={loading}` does nothing when
  it is pressed while loading.
- **Effects.** `Alert.alert` and `router` calls are results of the methods
  (`Ui.Alert`, `Ui.Navigation`). The HTTP response and the storage read and
  write are parameters.
- **Randomness.** The value `Math.random` draws is a parameter in [0, 1).
  `Math.round` and `Math.floor` are spelled out as `JsNumber.Round` and
  `JsNumber.Floor`.

## Model

| member | source | states |
|---|---|---|
| MarketTable.Cells | app/crop/mandiprice.tsx:40-43 | a line has at most as many cells as pipe-separated pieces, and no cell is empty |
| MarketTable.CellsAreTrimmedPieces | app/crop/mandiprice.tsx:40-43 | every cell of a line is non-empty, trimmed, and the trim of one of the pieces the line splits into at its pipes |
| MarketTable.ParseTable | app/crop/mandiprice.tsx:36-53 | one row per line after the first two; no rows when the text has at most two lines |
| MarketTable.ShortTableHasNoRows | app/crop/mandiprice.tsx:36-38 | a header line alone, or a header and a rule line, give no rows |
| MarketTable.ParseTableRows | app/crop/mandiprice.tsx:36-39 | row i comes from line i + 2, so rows keep the order of their lines |
| MarketTable.BlankLineGivesEmptyRow | app/crop/mandiprice.tsx:39-52 | a line of only white space and pipes still yields a row, with all seven fields undefined |
| MarketTable.EmptyLineGivesEmptyRow | app/crop/mandiprice.tsx:39-52 | the empty line yields the all-undefined row |
| MarketTable.TrailingNewlineAddsEmptyRow | app/crop/mandiprice.tsx:36-53 | a trailing newline appends exactly one all-undefined row after the existing rows |
| MarketTable.CellsOfFormatLine | app/crop/mandiprice.tsx:40-43 | reading a line printed as pipe-separated, space-padded printable cells gives back exactly those cells, in order |
| MarketTable.ParseRow | app/crop/mandiprice.tsx:44-52 | the k-th field is defined exactly when the line has more than k cells, so the all-undefined row comes exactly from a line without cells |
| MarketTable.FieldsOfFormatLine | app/crop/mandiprice.tsx:44-52 | the k-th cell lands in the k-th of date, state, district, market, commodity, min_price, max_price; extra cells are ignored and missing ones are undefined |
| MarketTable.ParseFormatTable | app/crop/mandiprice.tsx:36-53 | parsing a printed table gives one record per printed row, in order, each holding that row's cells |
| MarketTable.MarketDashboard.constructor | app/crop/mandiprice.tsx:15-21 | the initial inputs Uttrakhand, Haridwar, Haridwar and Rice; an empty table; not loading |
| MarketTable.MarketDashboard.StartFetch | app/crop/mandiprice.tsx:26-32 | raises loading and sends the four current inputs under the keys state, District, Market and Commodity |
| MarketTable.MarketDashboard.Edit | app/crop/mandiprice.tsx:94-97 | an edited input changes only that input and starts a fetch with the new values |
| MarketTable.MarketDashboard.FinishFetch | app/crop/mandiprice.tsx:55-60 | a response replaces the table with its parse; a failure keeps the old table; loading ends either way |
| Notifications.IconFor | app/profile/notification.tsx:76-89 | the default bell icon is chosen exactly for a type other than mandi, disease, weather and update |
| Notifications.IconTable | app/profile/notification.tsx:76-89 | mandi gets the green cash icon, disease the red bug, weather the amber cloud, update the blue information circle, and any other type the grey bell; types are compared as written |
| Notifications.IconsTellKindsApart | app/profile/notification.tsx:76-89 | the four known types get four different icons |
| Notifications.Visible | app/profile/notification.tsx:92-94 | a tab never shows more than the list holds, and every notification it shows belongs on that tab |
| Notifications.VisibleMembership | app/profile/notification.tsx:92-94 | the recent tab shows exactly the unarchived notifications and the archived tab exactly the archived ones |
| Notifications.VisibleKeepsOrder | app/profile/notification.tsx:92-94 | each tab is an order-preserving subsequence of the list |
| Notifications.TabsPartition | app/profile/notification.tsx:92-94 | the two tabs together hold every notification exactly once (as multisets) |
| Notifications.MarkRead | app/profile/notification.tsx:98-101 | same length; every notification with the pressed id is read; every other one is unchanged; no field but isRead ever changes |
| Notifications.MarkReadIdempotent | app/profile/notification.tsx:98-101 | pressing the same id twice gives the list that pressing once gives |
| Notifications.MarkReadAbsentId | app/profile/notification.tsx:98-101 | pressing an id that no notification has changes nothing |
| Notifications.MarkReadKeepsTabs | app/profile/notification.tsx:92-101 | pressing never moves a notification between tabs: each tab afterwards is the old tab with the pressed one marked read |
| Notifications.TabsSplitAt | app/profile/notification.tsx:92-94 | when the unarchived notifications all come first, the recent tab is that leading run and the archived tab the rest |
| Notifications.InitialTabs | app/profile/notification.tsx:23-73 | with the shipped list, the recent tab shows the first three notifications and the archived tab the last two |
| Notifications.NotificationScreen.constructor | app/profile/notification.tsx:72-73 | the screen opens on the recent tab with the shipped list |
| Notifications.NotificationScreen.SelectTab | app/profile/notification.tsx:164-173 | a tab button selects its tab |
| Notifications.NotificationScreen.Press | app/profile/notification.tsx:97-102 | a press replaces the list with MarkRead of the old list |
| Registration.FindByEmail | app/register.tsx:50 | no result exactly when no user has the email; otherwise the first user with exactly that email (case-sensitive) |
| Registration.Judge | app/register.tsx:45-57 | missing fields exactly when a field is empty; email taken exactly when the fields are filled and some user has the email; otherwise the list with the new user appended |
| Registration.AcceptedAppends | app/register.tsx:56-57 | an accepted registration grows the list by one and keeps the old list as its prefix |
| Registration.AcceptedKeepsEmailsUnique | app/register.tsx:50-57 | if emails were unique before an accepted registration, they are unique after it |
| Registration.RegisterScreen.constructor | app/register.tsx:22-25 | empty form and empty user list |
| Registration.RegisterScreen.LoadStored | app/register.tsx:29-41 | a stored list replaces the users; an absent or unreadable entry keeps them |
| Registration.RegisterScreen.Type | app/register.tsx:100-116 | each input changes only its own field |
| Registration.RegisterScreen.HandleRegister | app/register.tsx:44-78 | each of the four outcomes with its alert; users change only when both checks pass and the write succeeded, and then to the appended list |
| Registration.RegisterScreen.ConfirmSuccess | app/register.tsx:63-72 | the success alert's OK clears the form and pushes /login |
| CropRecommendation.MatchStatus | app/soilrecommendetion.tsx:137-141 | Perfect exactly for a number in [min, max]; Low exactly for a number below min; High exactly for NaN or a number above max |
| CropRecommendation.NaNIsHigh | app/soilrecommendetion.tsx:137-140 | a value that does not parse is reported High |
| CropRecommendation.ComparisonData | app/soilrecommendetion.tsx:128-135 | four rows holding the form's N, P, K and pH readings, each with a non-empty optimal range |
| CropRecommendation.IotReadingsArePerfect | app/soilrecommendetion.tsx:33-48 | the device readings 85, 42, 35 and 6.2 are all within their optimal ranges |
| CropRecommendation.MatchColumn | app/soilrecommendetion.tsx:171-173 | the Match column has one badge for each of the four rows, and row i's badge is the match status of row i's parsed reading against that row's optimal range |
| CropRecommendation.UnparsedReadingIsHigh | app/soilrecommendetion.tsx:171-173 | a reading that does not parse shows High in the Match column |
| CropRecommendation.CropRecommendationScreen.constructor | app/soilrecommendetion.tsx:53-64 | the form is shown, blank, with no results and nothing loading |
| CropRecommendation.CropRecommendationScreen.Type | app/soilrecommendetion.tsx:145-160 | typing changes one field, and only while the form is shown |
| CropRecommendation.CropRecommendationScreen.PressLoadIot | app/soilrecommendetion.tsx:81-85 | when enabled: loading, no results, form shown, the device delay started; otherwise nothing changes |
| CropRecommendation.CropRecommendationScreen.IotTimerFires | app/soilrecommendetion.tsx:87-98 | all six fields take the device values, loading ends, and the success alert is raised |
| CropRecommendation.CropRecommendationScreen.PressPredict | app/soilrecommendetion.tsx:101-110 | an empty field raises the error and changes nothing; otherwise loading starts and the previous results are cleared |
| CropRecommendation.CropRecommendationScreen.PredictTimerFires | app/soilrecommendetion.tsx:112-117 | the fixed recommendations are shown, loading ends and the form is hidden |
| CropRecommendation.CropRecommendationScreen.PressEditForm | app/soilrecommendetion.tsx:121-125 | with results shown and not loading: form shown, results cleared; the invariant that results and form are never shown together holds throughout |
| SoilForm.Set | app/soilrecommendetion.tsx:55-60 | a setter changes its own field to the text and leaves the other five alone |
| SoilForm.CompleteMeansEveryField | app/soilrecommendetion.tsx:103 | the emptiness check passes exactly when no field is empty |
| SoilForm.MockIotIsComplete | app/soil/soildetection.tsx:49-63 | the device values always pass the emptiness check, and the blank form never does |
| Fertilizer.FertilizerFor | app/fertilizerrecommendation.tsx:44-53 | the general mix is given exactly to crops that are neither paddy nor maize after lower-casing |
| Fertilizer.Recommend | app/fertilizerrecommendation.tsx:44-53 | the `let result` chain computes the rule FertilizerFor |
| Fertilizer.AlwaysOneOfSix | app/fertilizerrecommendation.tsx:44-53 | the result is always one of the six fertilizer names |
| Fertilizer.CaseDoesNotMatter | app/fertilizerrecommendation.tsx:46-50 | crop names that agree after lower-casing get the same fertilizer |
| Fertilizer.OtherCropsIgnoreReadings | app/fertilizerrecommendation.tsx:44-53 | a crop other than paddy and maize gets the general mix, whatever N, P and K are |
| Fertilizer.IrrelevantReadings | app/fertilizerrecommendation.tsx:46-52 | maize never depends on N or P, and paddy never on K |
| Fertilizer.ChipClasses | app/fertilizerrecommendation.tsx:8-11 | of the thirteen crop chips, Paddy reaches the paddy rule, Maize the maize rule, and every other chip the general mix |
| Fertilizer.FertilizerScreen.constructor | app/fertilizerrecommendation.tsx:15-20 | empty inputs, no result, not loading |
| Fertilizer.FertilizerScreen.Enter | app/fertilizerrecommendation.tsx:15-18 | the inputs take the typed values and the tapped crop |
| Fertilizer.FertilizerScreen.HandleRecommend | app/fertilizerrecommendation.tsx:22-41 | disabled while loading; an empty input gives the fill-all error, a NaN reading the numeric error, both without a result; otherwise loading starts, the result is cleared and the parsed inputs are captured |
| Fertilizer.FertilizerScreen.TimerFires | app/fertilizerrecommendation.tsx:43-58 | the result is FertilizerFor of the captured inputs and loading ends |
| CropRotation.PlanRotation | app/crop/croprotationplanner.tsx:47-63 | the reassign-then-append steps compute RotationFor, which never looks at N or P |
| CropRotation.FlaggedIffLowPotash | app/crop/croprotationplanner.tsx:60-63 | the suggestion ends with the potash note exactly when K is below 15 |
| CropRotation.StartsWithBase | app/crop/croprotationplanner.tsx:48-57 | the suggestion always starts with one of the three base crops |
| CropRotation.RotationFor | app/crop/croprotationplanner.tsx:47-63 | the suggestion is the bare base crop exactly when K is at least 15 |
| CropRotation.SuggestedCrop | app/crop/croprotationplanner.tsx:48-63 | whatever K, the suggestion names Lentil after Paddy or Wheat, Sugarcane after Lentil and Maize after any other crop |
| CropRotation.RepeatsOnlyMaize | app/crop/croprotationplanner.tsx:48-57 | of the six past-crop chips, Maize alone is followed by the same crop: the default "Maize (High Yielding)" names maize again, although the comment at line 50 says not to plant the same crop; the other five get a different crop |
| CropRotation.RotationPlanner.constructor | app/crop/croprotationplanner.tsx:16-24 | nothing selected, no suggestion, not loading |
| CropRotation.RotationPlanner.Enter | app/crop/croprotationplanner.tsx:16-21 | the inputs take the typed values and the tapped past crop |
| CropRotation.RotationPlanner.HandlePlanRotation | app/crop/croprotationplanner.tsx:26-44 | disabled while loading; an empty input or a NaN reading gives its alert and no suggestion; otherwise loading starts, the old suggestion is cleared and the inputs are captured |
| CropRotation.RotationPlanner.TimerFires | app/crop/croprotationplanner.tsx:47-67 | the suggestion is RotationFor of the captured crop and K, and loading ends |
| SeedVariety.VarietyFor | app/seedvariety.tsx:54-68 | a region containing "Himalayan" gives the cold-resistant paddy; otherwise a region containing "Arid" gives the drought-tolerant millet |
| SeedVariety.ChooseVariety | app/seedvariety.tsx:54-68 | the `let variety` chain computes VarietyFor, which never looks at N, P or K |
| SeedVariety.RegionOverridesReadings | app/seedvariety.tsx:58-61 | where a region rule applies, pH and temperature do not matter |
| SeedVariety.AcidityBeforeHeat | app/seedvariety.tsx:62-68 | with no region rule: pH below 5.5 gives the rice, else a temperature above 35 the maize, else the wheat hybrid |
| SeedVariety.NoRegionRule | app/seedvariety.tsx:58-61 | a region without the letters H and A is decided as if no region were chosen |
| SeedVariety.HimalayanChip | app/seedvariety.tsx:9-12 | the Himalayan chip always gives the cold-resistant paddy |
| SeedVariety.AridChip | app/seedvariety.tsx:9-12 | the Western India (Arid) chip always gives the drought-tolerant millet |
| SeedVariety.OtherChips | app/seedvariety.tsx:9-12 | the other three chips are decided by pH and temperature alone |
| SeedVariety.SeedVarietyScreen.constructor | app/seedvariety.tsx:17-29 | empty inputs, no region, no result, not loading |
| SeedVariety.SeedVarietyScreen.Enter | app/seedvariety.tsx:17-26 | the inputs take the typed values and the tapped region |
| SeedVariety.SeedVarietyScreen.HandleRecommend | app/seedvariety.tsx:31-51 | disabled while loading; an empty input or a NaN in any of the five readings gives its alert and no result; otherwise loading starts and the inputs are captured |
| SeedVariety.SeedVarietyScreen.TimerFires | app/seedvariety.tsx:54-72 | the result is VarietyFor of the captured region, pH and temperature, and loading ends |
| YieldPrediction.Predict | app/yieldprediction.tsx:53-63 | the `mockYield +=` accumulator computes FinalYield of BaseYield, which never looks at K or rainfall |
| YieldPrediction.BaseYield | app/yieldprediction.tsx:55-59 | the base lies in [3000, 4500]; it is 3000 exactly when no bonus is earned and 4500 exactly when all three are |
| YieldPrediction.FinalYield | app/yieldprediction.tsx:62 | the estimate is within one half of the base plus 200 times the draw |
| YieldPrediction.JitterBounds | app/yieldprediction.tsx:62 | for a draw in [0, 1) the rounded estimate lies in [base, base + 200] |
| YieldPrediction.YieldBounds | app/yieldprediction.tsx:55-62 | every estimate lies in [3000, 4700] |
| YieldPrediction.MonotoneInNutrients | app/yieldprediction.tsx:57 | raising N and P never lowers the base |
| YieldPrediction.HybridChips | app/yieldprediction.tsx:9-11 | of the four variety chips, only the maize hybrid earns the hybrid bonus |
| YieldPrediction.YieldScreen.constructor | app/yieldprediction.tsx:16-28 | empty inputs, no variety, no result, not loading |
| YieldPrediction.YieldScreen.Enter | app/yieldprediction.tsx:16-25 | the inputs take the typed values and the tapped variety |
| YieldPrediction.YieldScreen.HandlePredict | app/yieldprediction.tsx:30-51 | disabled while loading; an empty input or a NaN in any of the five readings gives its alert and no result; otherwise loading starts and the inputs are captured |
| YieldPrediction.YieldScreen.TimerFires | app/yieldprediction.tsx:53-66 | the result is the estimate for the captured inputs and the draw, and loading ends |
| SoilHealth.TierOf | app/soildetection.tsx:28-35 | excellent exactly when all five thresholds hold; normal exactly when not excellent and N, P and K pass the middle thresholds; needs improvement exactly when they do not |
| SoilHealth.Detect | app/soildetection.tsx:28-35 | the `let result` chain gives the message of TierOf, which never looks at temperature |
| SoilHealth.MessagesDistinct | app/soildetection.tsx:28-35 | the three messages tell the three tiers apart |
| SoilHealth.MonotoneInNutrients | app/soildetection.tsx:29-34 | raising N, P or K (a NaN counts as no value) never lowers the tier |
| SoilHealth.NaNNutrientNeedsImprovement | app/soildetection.tsx:29-34 | a NaN in N, P or K always gives the needs-improvement tier |
| SoilHealth.NaNPhIsNeverExcellent | app/soildetection.tsx:29-32 | a NaN pH is never excellent, and is normal exactly when N, P and K pass the middle tier |
| SoilHealth.SoilHealthScreen.constructor | app/soildetection.tsx:7-12 | empty inputs and no result |
| SoilHealth.SoilHealthScreen.Enter | app/soildetection.tsx:7-11 | the inputs take the typed values |
| SoilHealth.SoilHealthScreen.HandleDetect | app/soildetection.tsx:14-38 | an empty input gives the error and keeps the result; otherwise the result is the message for the parsed readings, with no NaN check |
| SoilInput.ParamsOf | app/soil/soildetection.tsx:69-76 | the params hold exactly the six reading keys |
| SoilInput.ParamsCarryForm | app/soil/soildetection.tsx:69-76 | the params hold exactly the six keys, each with its field's text unchanged |
| SoilInput.SoilInputScreen.constructor | app/soil/soildetection.tsx:17-24 | blank form, not loading |
| SoilInput.SoilInputScreen.Type | app/soil/soildetection.tsx:27-42 | typing changes only its own field |
| SoilInput.SoilInputScreen.PressLoadIot | app/soil/soildetection.tsx:45-46 | loading starts with the device delay; pressing while loading does nothing |
| SoilInput.SoilInputScreen.IotTimerFires | app/soil/soildetection.tsx:48-58 | the six fields take the device values, which pass the emptiness check, and loading ends |
| SoilInput.SoilInputScreen.PressPredict | app/soil/soildetection.tsx:61-84 | disabled while loading; an empty field gives the error and no navigation; otherwise a push to /soil/soilrecommendetion with the form's params |
| SoilResults.ValidatedParams | app/soil/soilrecommendetion.tsx:27-37 | null exactly when one of the six params is absent or empty; otherwise the six parsed values |
| SoilResults.Score | app/soil/soilrecommendetion.tsx:46 | the score minus 65 is the whole part of 31 times the draw |
| SoilResults.ScoreBounds | app/soil/soilrecommendetion.tsx:46 | for a draw in [0, 1) the score is a whole number in [65, 95] |
| SoilResults.ComputeResults | app/soil/soilrecommendetion.tsx:44-47 | each crop keeps everything but its score, which is its own draw's score |
| SoilResults.ResultsKeepCrops | app/soil/soilrecommendetion.tsx:44-47 | the three crops keep their ids, names, placeholders and order, and every score lies in [65, 95] |
| SoilResults.SoilResultsScreen.constructor | app/soil/soilrecommendetion.tsx:21-23 | the params are the screen's; no results; loading |
| SoilResults.SoilResultsScreen.Mount | app/soil/soilrecommendetion.tsx:39-55 | valid params start the delay; invalid ones raise the missing-params alert and go back, leaving loading on and no results |
| SoilResults.SoilResultsScreen.TimerFires | app/soil/soilrecommendetion.tsx:42-50 | the results are the computed list and loading ends |
| SoilHandOff.ParamsValidateIffComplete | app/soil/soildetection.tsx:61-83 | the params sent pass the results screen's check exactly when the form passes the input screen's, and parse to the form's own six readings |
| SoilHandOff.IotReadingsReachResults | app/soil/soildetection.tsx:48-83 | the device readings always reach the results screen |
| MandiPrices.FilteredPrices | app/mandiprice.tsx:27-30 | never more items than listed, and every shown item matches the query and the mandi selection |
| MandiPrices.ShownIffMatches | app/mandiprice.tsx:27-30 | an item is shown exactly when it is listed, its crop contains the query ignoring case, and its market is the selected one or All Mandis is selected |
| MandiPrices.ShownInOrder | app/mandiprice.tsx:27-30 | the shown list is an order-preserving subsequence of the listed one |
| MandiPrices.InitiallyShowsAll | app/mandiprice.tsx:24-30 | with the initial empty query and All Mandis, every item is shown |
| MandiPrices.CaseDoesNotMatter | app/mandiprice.tsx:28 | queries that differ only in case show the same list |
| MandiPrices.LongerQueryNarrows | app/mandiprice.tsx:28 | if q is a substring of q2, the results for q2 are a subsequence of those for q |
| CropProtection.FilteredPests | app/cropprotection.tsx:49-51 | at most the five pests, and every shown pest matches the query |
| CropProtection.ShownIffMatches | app/cropprotection.tsx:49-51 | a pest is shown exactly when its name contains the query ignoring case; the list is an order-preserving subsequence of the five pests |
| CropProtection.EmptyQueryShowsAll | app/cropprotection.tsx:47-51 | the initial empty query shows all five pests |
| CropProtection.NoResultsIffNothingMatches | app/cropprotection.tsx:73-87 | the no-results card appears exactly when no pest matches |
| CropProtection.CaseDoesNotMatter | app/cropprotection.tsx:50 | queries that differ only in case show the same list |
| CropProtection.LongerQueryNarrows | app/cropprotection.tsx:50 | if q is a substring of q2, the results for q2 are a subsequence of those for q |
| DiseaseDetail.SeverityStyle | app/crop/diseasedetail.tsx:37-44 | the grey default badge is chosen exactly for a word other than high, medium and low in any case |
| DiseaseDetail.SeverityTable | app/crop/diseasedetail.tsx:37-41 | in any casing, high gives red with white text, medium amber with dark text, and low green with white text |
| DiseaseDetail.CaseDoesNotMatter | app/crop/diseasedetail.tsx:38 | words that differ only in case get the same badge |
| DiseaseDetail.StylesDistinct | app/crop/diseasedetail.tsx:39-42 | two badges have the same background exactly when they are the same badge |
| DiseaseDetail.ShownRecordIsAmber | app/crop/diseasedetail.tsx:8-46 | the shown record, rated Medium, gets the amber badge with dark text |
| Login.HandleLogin | app/account/login.tsx:22-39 | navigation to /home is offered, through the success dialog's OK, exactly for test@gmail.com with 123456; the mandatory-fields error exactly when a field is empty; the failure alert otherwise; app/login.tsx has the same handler, at lines 19-36 |
| Login.EmptinessFirst | app/account/login.tsx:23-29 | an empty field is reported as such even beside a correct credential |
| Login.EmailCaseMatters | app/login.tsx:26 | the email check is case-sensitive; this comparison is the same on both login screens (app/account/login.tsx:29) |
| QrScanner.QrScannerScreen.constructor | app/other/qrscannerscreen.tsx:8-9 | permission unknown, nothing scanned |
| QrScanner.QrScannerScreen.PermissionResolved | app/other/qrscannerscreen.tsx:12-20 | permission becomes true exactly for the status granted |
| QrScanner.QrScannerScreen.CodeRead | app/other/qrscannerscreen.tsx:23-32 | while scanning with permission, a code sets scanned and raises exactly one prompt; otherwise nothing changes and no prompt appears |
| QrScanner.QrScannerScreen.ScanAgain | app/other/qrscannerscreen.tsx:41-44 | Scan Again clears scanned, so handling resumes when permission was granted |
| QrScanner.QrScannerScreen.CheckGenuinity | app/other/qrscannerscreen.tsx:34-40 | Check Genuinity goes back and leaves scanned set |
| Lists.Map | app/crop/mandiprice.tsx:42 | `map` keeps the length and applies the function at every index |
| Lists.Filter | app/crop/mandiprice.tsx:43 | `filter` keeps only elements that pass, drops none that pass, and never grows the list |
| JsText.Lower | app/mandiprice.tsx:28 | `toLowerCase` keeps the length and lower-cases each character |
| JsText.LowerIdempotent | app/mandiprice.tsx:28 | lower-casing twice is lower-casing once |
| JsText.LowerKeepsIncludes | app/mandiprice.tsx:28 | a substring stays a substring after both sides are lower-cased |
| JsText.IncludesTransitive | app/cropprotection.tsx:50 | a substring of a substring is a substring |
| JsText.Split | app/crop/mandiprice.tsx:37 | `split` gives at least one piece, and no piece holds the separator |
| JsText.JoinSplit | app/crop/mandiprice.tsx:37 | joining the pieces of a split gives back the string |
| JsText.SplitJoin | app/crop/mandiprice.tsx:37 | splitting a join of separator-free pieces gives back the pieces |
| JsText.SplitTrailingSeparator | app/crop/mandiprice.tsx:37 | a trailing separator adds one empty piece at the end |
| JsText.Trim | app/crop/mandiprice.tsx:42 | `trim` leaves no white space at either end |
| JsText.TrimFixesTrimmed | app/crop/mandiprice.tsx:42 | trimming changes exactly the strings that are not already trimmed |
| JsText.TrimPadded | app/crop/mandiprice.tsx:42 | one space of padding on either side of a trimmed cell is removed |
| JsNumber.NaNFailsEveryComparison | app/soildetection.tsx:29-34 | NaN fails `<`, `>`, `<=` and `>=` against every constant |
| JsNumber.Round | app/yieldprediction.tsx:62 | `Math.round` gives an integer within one half of its argument |
| JsNumber.Floor | app/soil/soilrecommendetion.tsx:46 | `Math.floor` gives the largest integer not above its argument |
| JsNumber.RoundShift | app/yieldprediction.tsx:62 | rounding a whole number plus a non-negative fraction adds the rounded fraction |

## Left out

- The HTTP request of the market dashboard is not modelled. The response text, or a failure, is a parameter of `FinishFetch`.
- Overlapping fetches are not modelled. When inputs change faster than responses arrive, the last response to arrive wins in the app. The model takes one response at a time.
- The commented-out five-year graph fetch in app/crop/mandiprice.tsx is not modelled, because it never runs.
- AsyncStorage is not modelled. The mount-time read is a parameter of `LoadStored`, and the write is the `saved` flag of `HandleRegister`.
- `setTimeout` delays are not modelled as time. Each callback is a separate step, and nothing else is assumed to happen in between.
- `console.log` and `console.error` output is left out.
- `Alert.alert` and `router` calls are results of the methods. Dialog buttons the app wires to actions are methods of their own, such as `ConfirmSuccess`, `ScanAgain` and `CheckGenuinity`.
- `Math.random` is not modelled. Its draws are parameters, assumed to lie in [0, 1).
- `parseFloat` prefix parsing and IEEE floating point are not modelled. Parsing is an abstract function to `Option<real>`, and the readings are real numbers.
- JsText.Lower: lower-cases ASCII letters only, because full Unicode case mapping is out of scope; the lists on screen hold ASCII names, but a non-ASCII query is compared as typed.
- The camera, the image picker and the barcode hardware are left out. The scanner delivers a code only through `CodeRead`.
- The "Go Back" buttons of the scanner's no-permission and overlay views are left out. They only call `router.back()`.
- The simulated Google sign-in of app/account/login.tsx is left out. It is a dialog with no logic.
- app/desirecrop.tsx is left out. It only decodes its params with `JSON.parse`.
- The presentational and navigation-only files (home, headers, side menus, bottom navigation, start, weather, product, quick links and genuinity screens) and every StyleSheet are left out.
- The chatbot screen that the profile side menu routes to is not part of this model.
- The mandi price screen never changes its market selection (its setter is unused), so it stays All Mandis; the MandiPrices lemmas hold for any selection.
- SoilResults.ValidatedParams: navigation params are modelled as strings. Repeated query keys, which would make a param an array, are left out.
- SoilResults.ComputeResults: requires one draw per crop, because the app draws once for each of the three crops.
