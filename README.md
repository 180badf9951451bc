# Construction estimator core, modelled in Dafny

This project models the two deterministic cores of a small construction-estimate
service:

- **The room-based estimate** (`app.py`). A rate table gives the dollars per square foot
  for the finish tiers basic (120), standard (180) and premium (240). The `estimate()`
  loop does the following for each room of the request:
  - it lower-cases the finish and defaults it to "standard";
  - it looks up the rate, falling back to the standard rate;
  - it prices the room at `round(area * rate, 2)`;
  - it appends one item and adds the cost to a running total.

  The reply is `{subtotal: round(total, 2), currency: "USD", items}`.
- **The logic around the AI estimator** (`utils/plan_ai.py`):
  - collecting the text and images of uploaded plan files;
  - assembling the prompt content: a "FILE: name" section per file with text, at most
    two images per file, and the joined text cut to 24000 characters and put first;
  - the placeholder estimate returned when no API key is set;
  - the identity `revise_estimate` when no API key is set;
  - the "sanity" pass that fills in a missing `subtotal` (the sum of the items'
    `total_cost`) and a missing `currency` ("USD").

Layout:

- `common.dfy` (`Common`): `Option`, `Result`, and `Take`, which is Python's `s[:n]`.
- `text.dfy` (`Text`): Python's `lower`, `strip`-emptiness, `endswith` and `join`.
- `money.dfy` (`Money`): money as exact reals, and `Round2`, which is Python's
  `round(x, 2)` with ties going to even.
- `json.dfy` (`JsonValue`): decoded JSON values, and Python's `float()` on them.
- `estimator.dfy` (`Estimator`): the model of `app.py`.
- `plan_ai.dfy` (`PlanAi`): the model of `utils/plan_ai.py`.

Each loop the model covers is a method with a `for` loop. The method is proved equal to a
specification function stated without the loop: `Estimate` against `EstimateOf`,
`ExtractTextAndImages` against `Extraction`, `BuildContent` against `PromptContent`, and
`Sanitize` against `SanityOf`. Lemmas state what the source promises about those
functions.

External calls are parameters:
- The OpenAI chat completion of `analyze_plans` is `service`, a function from the
  prompt content to the decoded JSON object.
- The completion of `revise_estimate` is `reviser`, a function of the current estimate
  and the answers.
- Python's parsing of numeric text, which `float()` applies to a string, is
  `parseFloat`, a function from a string to an optional number.
- The PDF library's view of a file is a `ParsedFile` input: either its pages (each with
  its text and its named images) or `NotPdf` when parsing raises.

Facts about the code that the model keeps:
- A negative area is priced like any other (app.py:27-30).
- An empty room list gives subtotal 0 and no items.
- A subtotal in the service's reply is kept when present (utils/plan_ai.py:87).
- A comment in `analyze_plans` speaks of "up to 4 images". The code takes the first two
  images of every file, with no overall cap, and the model does the same.

## Model

| member | source | states |
|---|---|---|
| `Estimator.RateFor` | app.py:17-29 | basic, standard and premium get 120, 180 and 240; every other finish gets the standard 180; every rate is positive |
| `Estimator.Estimate` | app.py:20-33 | the loop's reply equals `EstimateOf`: one item per room in order, subtotal = round(running total, 2), currency "USD" |
| `Estimator.EstimateItem` | app.py:26-31 | item i records room i's name (default "Room"), area (default 0), lower-cased finish (default "standard"), the rate for that finish, and cost round(area × rate, 2) |
| `Estimator.FinishIgnoresCase` | app.py:28-29 | a finish spelling a tier in any case is that tier and gets its rate |
| `Estimator.RecordedItemReprices` | app.py:26-31 | an item's recorded name, area and finish, priced again as a room, give the same item, since the recorded finish is already lower case |
| `Estimator.MissingFinishIsStandard` | app.py:28-29 | a room with no finish is "standard" at rate 180 |
| `Estimator.MissingFieldsDefault` | app.py:26-30 | no area means area 0 and cost 0; no name means "Room" |
| `Estimator.EstimateEmpty` | app.py:22-33 | no rooms give subtotal 0, currency "USD" and no items |
| `Estimator.TotalIsCents` | app.py:30-32 | a total of costs rounded to cents is itself a whole number of cents |
| `Estimator.SubtotalIsExactTotal` | app.py:30-33 | on exact reals, the final round(total, 2) leaves the total unchanged: the subtotal is exactly the sum of the item costs |
| `Estimator.TotalNonNegative` | app.py:32 | a running total of non-negative costs is non-negative |
| `Estimator.EstimateNonNegative` | app.py:17-33 | with no negative area, every cost and the subtotal are non-negative, since all rates are positive |
| `Estimator.TotalAppend` | app.py:32 | the running total over two lists of items is the sum of their totals |
| `Estimator.EstimateSplits` | app.py:25-33 | estimating two room lists together gives the concatenated items and the sum of the two subtotals |
| `Estimator.KitchenAndBath` | app.py:17-33 | 150 sqft premium and 80 sqft standard cost 36000 and 14400, subtotal 50400 |
| `Money.Round2` | app.py:30 | round(x, 2) is a whole number of cents, within 0.005 of x, and non-negative for non-negative x |
| `Money.Round2OfCents` | app.py:33 | rounding an amount already in whole cents returns it unchanged |
| `Money.CentsAdd` | app.py:32 | the sum of two whole-cent amounts is a whole-cent amount |
| `Text.LowerIdempotent` | app.py:28 | lower-casing a lower-cased finish changes nothing |
| `Text.JoinEmptyIff` | utils/plan_ai.py:29 | a join of non-empty parts is empty exactly when there are no parts |
| `Text.JoinStartsWithFirst` | utils/plan_ai.py:73 | a join starts with its first part |
| `Common.Take` | utils/plan_ai.py:70-73 | a slice `s[:n]` is a prefix of s of length min(n, len(s)) |
| `JsonValue.AsFloat` | utils/plan_ai.py:86-87 | float() returns a number unchanged, 1.0 or 0.0 for a boolean, and the parsed value of numeric text; it fails on null, lists and objects |
| `PlanAi.NonBlankTexts` | utils/plan_ai.py:12-15 | the kept page texts are never blank, at most one per page, and there are none exactly when every page's text is blank |
| `PlanAi.ExtractTextAndImages` | utils/plan_ai.py:6-29 | the page loop returns `Extraction`: the non-blank page texts joined by "\n" and every page's images in order; a non-PDF becomes one PNG image of its bytes |
| `PlanAi.ExtractionHasText` | utils/plan_ai.py:12-29 | the extracted text is non-empty exactly when the file is a PDF with a page whose text is not blank |
| `PlanAi.NotPdfIsOneImage` | utils/plan_ai.py:26-28 | an unparseable file gives empty text and the single image (bytes, "image/png") |
| `PlanAi.PageImagesMime` | utils/plan_ai.py:17-23 | every collected image comes from some page image; it is "image/jpeg" exactly when that image's lower-cased name ends in jpg or jpeg, and "image/png" otherwise |
| `PlanAi.Sections` | utils/plan_ai.py:66-69 | there are no "FILE:" text sections exactly when no file yields text |
| `PlanAi.FileImageParts` | utils/plan_ai.py:70-71 | at most 2 × (number of files) parts, all of them image parts |
| `PlanAi.FilesStep` | utils/plan_ai.py:66-71 | one more file adds its "FILE: name" section when it has text, and exactly the image parts of its first two images |
| `PlanAi.AppendImageParts` | utils/plan_ai.py:70-71 | the inner loop appends one image part per image, in order, with its bytes and MIME type |
| `PlanAi.BuildContent` | utils/plan_ai.py:63-73 | the assembly loops return `PromptContent`: the truncated text block first when there is one, then each file's first two images |
| `PlanAi.PromptBounds` | utils/plan_ai.py:70-73 | the content has at most 1 + 2 × (number of files) parts; a text part can only be the first part, and it holds at most 24000 characters |
| `PlanAi.PromptTextPresence` | utils/plan_ai.py:68-73 | the content starts with a text part exactly when some file yields text; that text is the "\n\n" join cut to 24000 characters and begins with the first file's section |
| `PlanAi.SanityOf` | utils/plan_ai.py:84-88 | the sanity pass fails only where Python raises (`parseFloat` standing for Python's parsing of numeric text). On success it keeps a present subtotal (as a float), sets a missing one to the items' total_cost sum, and keeps a present currency. A missing currency becomes "USD". Every other key is unchanged |
| `PlanAi.SumFailurePersists` | utils/plan_ai.py:86 | the sum stops at the first item that fails, and the whole sum fails in the same way |
| `PlanAi.Sanitize` | utils/plan_ai.py:84-88 | the summing loop and the two dict updates return `SanityOf` |
| `PlanAi.NumericTextSubtotal` | utils/plan_ai.py:87 | a subtotal given as the text "50000" is converted to the number 50000, and a missing currency becomes "USD" |
| `PlanAi.SanityIdempotent` | utils/plan_ai.py:84-88 | applying the sanity pass to its own output returns that output unchanged |
| `PlanAi.SumTotalCostsAppend` | utils/plan_ai.py:86 | the items' total_cost sum adds up over concatenated item lists |
| `PlanAi.FallbackShape` | utils/plan_ai.py:54-59 | the placeholder has one "General Scope" item: qty 1, unit "ls", unit_cost and total_cost 50000. Its subtotal equals that total_cost. Its currency is "USD". It has one assumption, with confidence 0.3, and two non-empty questions |
| `PlanAi.FallbackIsSane` | utils/plan_ai.py:54-59 | the placeholder's items sum to 50000, and the sanity pass leaves the placeholder unchanged |
| `PlanAi.AnalyzePlans` | utils/plan_ai.py:43-89 | with an empty key: the placeholder, whatever the files and the service. Otherwise: the sanity pass applied to the service's reply to the assembled content |
| `PlanAi.ReviseEstimate` | utils/plan_ai.py:91-117 | with an empty key: `current` unchanged. Otherwise: the same sanity pass applied to the reviser's reply |

## Left out

- The OpenAI client and the chat completion calls (utils/plan_ai.py:76-83, 105-112) are
  foreign network calls. They are the `service` and `reviser` parameters. The system
  primer, the model name, the temperature and the token limits are not modelled.
- `json.loads` of the reply is not modelled. The reply is taken to be a decoded JSON
  object, so a reply that is not JSON, or not an object, is not represented.
- The PDF library (`PdfReader`, `extract_text`, `page.images`) is foreign. Its outcome is
  the `ParsedFile` input. An exception raised partway through the pages, or partway
  through one page's images, is not modelled: a file either parses fully or not at all,
  and a page's images are either all listed or none.
- The text extraction in the no-key path of `analyze_plans`, and the `text` variable it
  builds (utils/plan_ai.py:48-53), are computed and then discarded, so they are not modelled.
- IEEE-754 doubles are not modelled. Amounts are exact reals, and `Round2` is `round(x, 2)`
  on exact values, ties to even. Binary representation error is not modelled.
- Text.Lower: only ASCII letters are lower-cased. Python's `str.lower` also maps
  non-ASCII capitals, and no rate-table key depends on them.
- Python's parsing of numeric text (`float("12.5")`, `float(" 1e3 ")`, `float("inf")`) is
  foreign to the model. It is the `parseFloat` parameter, and nothing is proved about which
  strings it accepts.
- Estimator.Estimate: the request parsing is left out (`get_json(silent=True) or {}`,
  `data.get("rooms", [])`). So is the `float()` of `area_sqft`, including its exception on
  non-numbers: the area is taken as the already-converted number. `name` and `finish` are
  taken to be strings when present, whereas Python would `str()` a non-string finish and
  pass a non-string name through.
- JSON integers and floats are both `Num`, so `float(50000) == 50000.0` is the identity.
- Flask routing and the `/healthz` and `/` handlers (app.py:6-15) are HTTP plumbing.
- `models.py` has column declarations only. `vertex_firebase_demo.py`, `push_repo.py` and
  `gunicorn.conf.py` are SDK, upload and server configuration. None of them is part of
  this model.
