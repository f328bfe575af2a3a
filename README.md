# Chopped: score normaliser, upload admission, plans and photo slots in Dafny

This project models the core logic of a mobile app that rates a user's appearance from 2–4 photos. The app has a free tier and a premium tier.

- **Server** (`backend/server.js`)
  - `ModelResponse`: the reply of the external vision model is searched for a `{…}` block. If there is no reply, no block, or the block does not parse, the server falls back to a mock analysis.
  - `ScoreNormalizer`: the parsed object is normalised by `validateAndNormalizeAnalysis`.
    - The total is clamped into [0, 100].
    - Each sub-score is clamped into its band: face and hair [0, 25], skin, style and body [0, 20].
    - Missing fields get defaults. JavaScript `||` is used, so a zero score or an empty suggestion also counts as missing.
    - A reconciliation loop then moves at most the first five categories by one point each toward the total.
  - `UploadAdmission`: an upload is admitted only if it has 2 to 4 files, each file is an `image/…` mimetype, and no file exceeds multer's 10 MiB `fileSize` limit. Whether a file of exactly 10 MiB passes depends on the multer version (see Left out). The model lets it pass.
- **Client service** (`services/analysisService.ts`), module `AnalysisService`:
  - the free/premium plan table and its fallback copy;
  - the limits and feature flags that `getUserStatus` derives from the tier;
  - the usage figures of the fixed mock results;
  - the analysis history, which keeps the ten newest entries, newest first.
- **Upload screen** (`screens/UploadScreen.tsx`), module `UploadScreen`: the list of picked photos is a class with a `seq` field.
  - Picking a photo replaces any photo of the same type.
  - Removing a photo works by id.
  - Continuing needs two photos.
  - The list never holds two photos of one type, so it never holds more than three.

## What the code does

These are facts about the code, each proved by a lemma.

- A zero sub-score is read as missing. `ZeroSubScoreIsNotKept` shows a face score of 0 turning into 15.
- A discrepancy larger than five points is only partly resolved. `LargeDiscrepancyPartlyResolved` proves this. `OverBandScenario` gives an example: total 90 with face 30 and the rest 20 ends with a breakdown summing to 100.
- The adjustment is not re-clamped. Sub-scores can end at −1 or one point above their band (`SubScoreCanExceedBand`, `SubScoreCanGoNegative`).
- The `adjustmentPerKey` value the loop computes is never used.

The program itself expects the breakdown to sum to the total: the prompt asks for breakdown scores that sum to the total score (`backend/server.js:147`), and the comment on the loop says it ensures the breakdown sums to the total (`backend/server.js:250`). The loop does not guarantee this, and the model follows what the loop does.

In the development branch, `getUserStatus` computes the used count and the remaining count from two separate `Math.random` draws. The model keeps that. `DevelopmentUsageFromSeparateDraws` shows the two counts agree exactly when the draws do.

Random draws, clocks, server replies and `JSON.parse` are parameters of the model:
- A server reply is an `Option`, with `None` when the request throws.
- A random draw is a `Draw` in the range `[0, 3)` that `Math.floor(Math.random() * 3)` can take.
- Dates are opaque strings.

## Model

| member | source | states |
|---|---|---|
| `ModelResponse.ExtractJsonBlock` | backend/server.js:204-210 | None exactly when no `{` is followed by a `}`; otherwise the block runs from the first `{` to the last `}` and starts with `{` and ends with `}` |
| `ModelResponse.AnalyzeReply` | backend/server.js:120-227 | the result is normalised exactly when a reply came, a block was found and it parsed; it is then the normalisation of the parsed object, with total in [0,100]; otherwise the mock fallback |
| `ModelResponse.NoBraceMeansFallback` | backend/server.js:205-216 | a reply with no `{`…`}` pair takes the mock fallback whatever the parser does |
| `ModelResponse.SurroundingTextDropped` | backend/server.js:204-207 | text before and after the object is cut off, nested braces kept |
| `ScoreNormalizer.Reconcile` | backend/server.js:250-264 | the loop leaves the total and suggestions alone and moves category i by one toward the total iff \|adjustment\| > 1 and i < \|adjustment\| |
| `ScoreNormalizer.ValidateAndNormalizeAnalysis` | backend/server.js:231-267 | returns the specified normalisation of the raw object, with total in [0,100] |
| `ScoreNormalizer.TotalIsClampedRawTotal` | backend/server.js:233 | total is the raw total clamped to [0,100], 70 when missing or zero, and untouched by reconciliation |
| `ScoreNormalizer.InitialSubScoreIsBandClamp` | backend/server.js:235-239 | before the loop each sub-score lies in its band, is the clamped raw value, or the default 15/15/12/12/12 when missing or zero |
| `ScoreNormalizer.SmallDiscrepancyLeftAlone` | backend/server.js:251-254 | when \|total − sum\| ≤ 1 the result equals the clamped object |
| `ScoreNormalizer.FirstKeysMoveTowardTotal` | backend/server.js:256-263 | exactly the first min(\|d\|,5) categories in order face, hair, skin, style, body move by sign(d); the rest keep their clamped value |
| `ScoreNormalizer.ModerateDiscrepancyResolved` | backend/server.js:250-263 | for 2 ≤ \|d\| ≤ 5 the final breakdown sums to the total |
| `ScoreNormalizer.LargeDiscrepancyPartlyResolved` | backend/server.js:256-263 | for \|d\| > 5 the final sum is the old sum ± 5 and differs from the total |
| `ScoreNormalizer.SubScoreWithinOneOfBand` | backend/server.js:235-263 | every final sub-score lies in [−1, band maximum + 1] |
| `ScoreNormalizer.SubScoreCanExceedBand` | backend/server.js:235-263 | total 100, face 25, the rest 1 ends with face 26 |
| `ScoreNormalizer.SubScoreCanGoNegative` | backend/server.js:235-263 | total 1, face −3, the rest at maximum ends with face −1 |
| `ScoreNormalizer.SuggestionsNeverEmpty` | backend/server.js:241-247 | each suggestion is the raw one when non-empty, else the category's fallback text, and never empty |
| `ScoreNormalizer.EmptyObjectScenario` | backend/server.js:231-266 | `{}` gives total 70, breakdown 16/16/13/13/12 summing to 70, all fallback suggestions |
| `ScoreNormalizer.OverBandScenario` | backend/server.js:231-266 | total 90 with face 30 and the rest 20 gives 24/19/19/19/19, summing to 100 |
| `ScoreNormalizer.SettledIsFixedPoint` | backend/server.js:231-266 | a result with positive in-band sub-scores, non-empty suggestions and sum within one of its total comes back unchanged |
| `ScoreNormalizer.ZeroSubScoreIsNotKept` | backend/server.js:235 | a face score of 0 is replaced by 15 and the breakdown ends 14/19/19/19/19 |
| `UploadAdmission.FirstRejectedFile` | backend/server.js:49-60 | None iff every file from the position on is an image within the size limit; otherwise the first refused file, as not-an-image before too-large |
| `UploadAdmission.Admit` | backend/server.js:49-84 | admitted iff 2 ≤ count ≤ 4 and every file is an `image/` mimetype within the `fileSize` limit of 10·1024·1024 bytes, read as in `SizeLimitIsInclusive`; each rejection names a real fault |
| `UploadAdmission.SizeLimitIsInclusive` | backend/server.js:52 | with the 10·1024·1024 `fileSize` limit read as refusing only larger files, 10485760 bytes pass and 10485761 do not |
| `UploadAdmission.MimetypePrefix` | backend/server.js:55 | `image/png` passes; `Image/png`, `image`, `application/pdf` do not |
| `AnalysisService.GetPlans` | services/analysisService.ts:281-372 | in development or when the request fails the result is the development table, otherwise the server's reply |
| `AnalysisService.FallbackIsDevelopmentTable` | services/analysisService.ts:335-370 | the error-path table equals the development table |
| `AnalysisService.PlanTableLimits` | services/analysisService.ts:297-317 | free = 2 images, 3 analyses a month, 5 MB; premium = 4, 50, 10 |
| `AnalysisService.PlanTableFeatures` | services/analysisService.ts:290-311 | basicAnalysis in both plans; the other four flags false for free and true for premium |
| `AnalysisService.PremiumDominatesFree` | services/analysisService.ts:285-320 | every premium limit is at least the free one and every free feature is a premium feature |
| `AnalysisService.GetUserStatus` | services/analysisService.ts:157-230 | development gives the drawn tier for the given id; a server reply is passed through; a failure gives a free status for the given id |
| `AnalysisService.LocalStatusMatchesPlanTable` | services/analysisService.ts:165-228 | whenever the status is built locally, its plan, monthly maximum, image limits and features are those of its tier in the plan table |
| `AnalysisService.DevelopmentLimitsDependOnTierOnly` | services/analysisService.ts:175-188 | two development statuses with the same tier have the same limits, features and monthly maximum whatever the id, draws and dates |
| `AnalysisService.EndDateOnlyForPremium` | services/analysisService.ts:168-172 | the subscription has an end date iff it is premium |
| `AnalysisService.FallbackUsageConsistent` | services/analysisService.ts:212-216 | the fallback usage is 0 used of 3, 3 remaining, and remaining = max − used |
| `AnalysisService.DevelopmentUsageFromSeparateDraws` | services/analysisService.ts:173-177 | used is in [0,2] and remaining in [max−2, max]; remaining = max − used exactly when the two draws agree |
| `AnalysisService.MockUsageConsistent` | services/analysisService.ts:106-121 | the mock usages 1/3/2 and 1/50/49 satisfy remaining = max − used and use the plan table's monthly maximum |
| `AnalysisService.MockScoresAreSettled` | services/analysisService.ts:89-104 | the mock scores 78 = 18+16+15+14+15 lie in their bands with non-empty suggestions |
| `AnalysisService.MockScoresAreFixedPoint` | services/analysisService.ts:89-104 | cross-check only: the client returns the mock without normalising it, and the server's normaliser would return the mock scores unchanged |
| `AnalysisService.SaveAnalysisResult` | services/analysisService.ts:425-446 | the new history has the entry at index 0, length min(old + 1, 10), and then the first min(old, 9) old entries in order |
| `AnalysisService.HistoryKeepsNewestTen` | services/analysisService.ts:437-440 | after any sequence of saves the history holds the min(n, 10) newest entries, newest first |
| `UploadScreen.FindTypeInfo` | screens/UploadScreen.tsx:57-58 | a found entry is in the table with the asked type; None only when no entry has it |
| `UploadScreen.NewPhotoTakesTableTexts` | screens/UploadScreen.tsx:53-59 | a new photo's label and description are those of its type's entry in the type table, and are non-empty |
| `UploadScreen.WithoutType` | screens/UploadScreen.tsx:62 | keeps exactly the photos of other types |
| `UploadScreen.WithoutId` | screens/UploadScreen.tsx:69 | keeps exactly the photos with other ids |
| `UploadScreen.FirstOfType` | screens/UploadScreen.tsx:73 | the position of the first photo of the type, or the length when there is none |
| `UploadScreen.FindPhoto` | screens/UploadScreen.tsx:73 | None iff no photo has the type; otherwise the first photo of that type |
| `UploadScreen.WithoutTypeKeepsOrder` | screens/UploadScreen.tsx:62 | filtering a concatenation filters each part in place, so the kept photos keep their relative order |
| `UploadScreen.WithoutAbsentType` | screens/UploadScreen.tsx:61-64 | with no photo of the type, filtering changes nothing |
| `UploadScreen.WithoutTypeRemovesOneSlot` | screens/UploadScreen.tsx:61-64 | with one photo per type, filtering type t removes exactly t's slot and keeps the others in order |
| `UploadScreen.WithoutIdKeepsOrder` | screens/UploadScreen.tsx:69 | removal by id keeps the other photos in their relative order |
| `UploadScreen.WithoutTypeKeepsOnePerType` | screens/UploadScreen.tsx:62 | filtering by type keeps at most one photo per type |
| `UploadScreen.WithoutIdKeepsOnePerType` | screens/UploadScreen.tsx:69 | removal by id keeps at most one photo per type |
| `UploadScreen.ReplaceKeepsOnePerType` | screens/UploadScreen.tsx:61-64 | filter-then-append keeps at most one photo per type |
| `UploadScreen.OnePerTypeBoundsLength` | screens/UploadScreen.tsx:19-35 | with one photo per type the list has as many types as photos, so at most three photos |
| `UploadScreen.FoundPhotoIsUnique` | screens/UploadScreen.tsx:72-74 | with one photo per type, the photo found for a type is the one photo of that type |
| `UploadScreen.ContinuingMeetsServerCount` | screens/UploadScreen.tsx:76 | for a valid list, two or more photos holds iff the server's 2..4 count check holds |
| `UploadScreen.UploadScreenState.constructor` | screens/UploadScreen.tsx:17 | the list starts empty and valid |
| `UploadScreen.UploadScreenState.PickImage` | screens/UploadScreen.tsx:61-64 | the new list is the old one without photos of that type, followed by the new photo; it stays valid and has at most three photos |
| `UploadScreen.UploadScreenState.RemovePhoto` | screens/UploadScreen.tsx:68-70 | the new list is the old one without photos of that id; it stays valid |
| `UploadScreen.UploadScreenState.GetPhotoForType` | screens/UploadScreen.tsx:72-74 | None iff no photo of the type; otherwise a listed photo of that type |
| `UploadScreen.UploadScreenState.CanContinue` | screens/UploadScreen.tsx:76 | true iff the list has at least the server's minimum of two photos |

## Left out

- Express, multer, helmet and cors wiring; disk storage; uuid file names; `fs.unlink` cleanup; `app.listen`. These are framework and I/O plumbing. Only the admission rule they enforce is modelled.
- The HTTP status of a rejection is not modelled. multer's errors reach the error middleware as 500, and the handler's count checks answer 400.
- The order among several rejections is not modelled. When an upload breaks more than one rule, the model reports the first bad file and then the count. The real order depends on multer's streaming, which is not part of this model.
- multer's `maxCount` of 4 is not modelled separately. It is folded into the handler's "more than 4" check.
- The OpenAI call, the base64 encoding of images and `JSON.parse` are foreign calls. The reply is a parameter and the parser a function parameter.
- JSON values that are not integers are not modelled (fractions, strings, `null`, `NaN`). Raw scores are integers, and a raw suggestion is a string or missing.
- `generateMockAnalysis` is left out because it uses `Math.random` and floating-point rounding. The model only records that the fallback is taken.
- A per-user monthly quota ledger (rollover, quota errors, upgrade expiry) is left out. None of the code modelled here implements it. The server's `/plans`, `/user/:id/status` and `/user/:id/upgrade` endpoints are not part of this model.
- In the client service, the following are left out: `fetch`, AsyncStorage/localStorage, `setTimeout` delays, `generateUserId`, and the choice between development and production by environment. The user id arrives resolved, and the development switch is a parameter.
- `upgradeUser`, the client `analyzeImages` and `getAnalysisHistory` are left out. They consist only of a network request, a random choice between two fixed mocks, or a storage read. The mocks' scores and usage figures are modelled.
- `premiumInsights` of the premium mock is left out. It is display text only.
- `UploadAdmission.SizeLimitIsInclusive`: the boundary is an assumption about the multer version. The source fixes no version. busboy 0.x, used by older multer releases, refuses only files larger than `fileSize`, and the model follows it. busboy 1.x refuses a file once its byte count reaches the limit, so there a file of exactly 10485760 bytes is refused.
- Plan prices are floating point (9.99). They are kept as whole cents.
- In `pickImage`, the permission prompt and the image picker are left out because they are device I/O. `PickImage` models the update made once an image was picked. The id from `Date.now()` and the image URI are parameters. The `type: string` argument is the three-valued photo type that every caller passes.
- The progress-bar width `min(len/4·100, 100)` is floating point and is left out. Its input never reaches 4, because the list holds at most three photos (`OnePerTypeBoundsLength`).
- All other screens, components, contexts, navigation, OAuth and config files are presentation, auth flows or constants and are left out.
- `UploadScreen.UploadScreenState.GetPhotoForType`: the class function states only that the returned photo is in the list and has the type. That it is the first such photo is stated by `FindPhoto`, which it returns.
