/** The deterministic logic around the AI estimator (utils/plan_ai.py): collecting text
    and images from uploaded plans, assembling the prompt content, the placeholder
    estimate used when no API key is set, and the "sanity" pass over the model's JSON. */
module PlanAi {
  import opened Common
  import opened Text
  import opened JsonValue

  type Bytes = seq<bv8>

  // ---------------------------------------------------------------------------
  // Text and images of one uploaded file

  /** An image XObject as the PDF library reports it. */
  datatype PageImage = PageImage(name: string, data: Bytes)

  /** One page as the PDF library reports it: its extracted text (None when the library
      returns none) and its images (None when listing them raises). */
  datatype Page = Page(text: Option<string>, images: Option<seq<PageImage>>)

  /** What the PDF library makes of an uploaded file: its pages, or an exception. */
  datatype ParsedFile = Pdf(pages: seq<Page>) | NotPdf

  /** An image ready for the prompt: its bytes and MIME type. */
  datatype EmbeddedImage = EmbeddedImage(data: Bytes, mime: string)

  /** The result of extraction: `{"text": ..., "images": [...]}`. */
  datatype Payload = Payload(text: string, images: seq<EmbeddedImage>)

  const JPEG_MIME := "image/jpeg"
  const PNG_MIME := "image/png"

  /** The MIME type given to an image: JPEG when its lower-cased name ends in "jpg" or
      "jpeg", PNG otherwise. */
  function MimeFor(name: string): string {
    var lower := Lower(name);
    if EndsWith(lower, "jpg") || EndsWith(lower, "jpeg") then JPEG_MIME else PNG_MIME
  }

  /** `page.extract_text() or ""`. */
  function PageText(page: Page): string {
    page.text.GetOr("")
  }

  /** The texts of the pages whose text is not blank, in page order. */
  function NonBlankTexts(pages: seq<Page>): (texts: seq<string>)
    ensures |texts| <= |pages|
    ensures forall i :: 0 <= i < |texts| ==> !IsBlank(texts[i])
    ensures texts == [] <==> forall i :: 0 <= i < |pages| ==> IsBlank(PageText(pages[i]))
  {
    if pages == [] then []
    else
      var init := pages[..|pages| - 1];
      var t := PageText(pages[|pages| - 1]);
      assert forall i :: 0 <= i < |init| ==> init[i] == pages[i];
      NonBlankTexts(init) + (if IsBlank(t) then [] else [t])
  }

  /** The images of one page, each tagged with its MIME type. */
  function Embedded(images: seq<PageImage>): seq<EmbeddedImage> {
    seq(|images|, i requires 0 <= i < |images| => EmbeddedImage(images[i].data, MimeFor(images[i].name)))
  }

  /** The images of all pages, in page order; a page whose images cannot be listed
      contributes none. */
  function PageImages(pages: seq<Page>): seq<EmbeddedImage> {
    if pages == [] then []
    else PageImages(pages[..|pages| - 1]) + Embedded(pages[|pages| - 1].images.GetOr([]))
  }

  /** What `_extract_pdf_text_and_images` returns for a file, stated without its loops. */
  function Extraction(bytes: Bytes, parsed: ParsedFile): Payload {
    match parsed
    case NotPdf => Payload("", [EmbeddedImage(bytes, PNG_MIME)])
    case Pdf(pages) => Payload(Join(NonBlankTexts(pages), "\n"), PageImages(pages))
  }

  /** `_extract_pdf_text_and_images`: walk the pages, keeping non-blank texts and every
      image; a file that is not a PDF becomes one PNG image of its own bytes. */
  method ExtractTextAndImages(bytes: Bytes, parsed: ParsedFile) returns (payload: Payload)
    ensures payload == Extraction(bytes, parsed)
  {
    if parsed.NotPdf? {
      return Payload("", [EmbeddedImage(bytes, PNG_MIME)]);
    }
    var pages := parsed.pages;
    var outText: seq<string> := [];
    var images: seq<EmbeddedImage> := [];
    for k := 0 to |pages|
      invariant outText == NonBlankTexts(pages[..k])
      invariant images == PageImages(pages[..k])
    {
      var page := pages[k];
      var t := page.text.GetOr("");
      if !IsBlank(t) {
        outText := outText + [t];
      }
      ghost var before := images;
      if page.images.Some? {
        var xobjs := page.images.value;
        for j := 0 to |xobjs|
          invariant images == before + Embedded(xobjs[..j])
        {
          var img := xobjs[j];
          images := images + [EmbeddedImage(img.data, MimeFor(img.name))];
          assert Embedded(xobjs[..j + 1]) == Embedded(xobjs[..j]) + [EmbeddedImage(img.data, MimeFor(img.name))];
        }
        assert xobjs[..|xobjs|] == xobjs;
      }
      assert pages[..k + 1][..k] == pages[..k];
    }
    assert pages[..|pages|] == pages;
    payload := Payload(Join(outText, "\n"), images);
  }

  /** The extracted text is non-empty exactly when the file is a PDF with a page whose
      text is not blank. */
  lemma ExtractionHasText(bytes: Bytes, parsed: ParsedFile)
    ensures Extraction(bytes, parsed).text != ""
        <==> parsed.Pdf? && exists i :: 0 <= i < |parsed.pages| && !IsBlank(PageText(parsed.pages[i]))
  {
    if parsed.Pdf? {
      var texts := NonBlankTexts(parsed.pages);
      assert forall i :: 0 <= i < |texts| ==> texts[i] != "" by {
        forall i | 0 <= i < |texts| ensures texts[i] != "" {
          assert !IsBlank(texts[i]);
        }
      }
      JoinEmptyIff(texts, "\n");
    }
  }

  /** A file that is not a PDF yields no text and one PNG image of its own bytes. */
  lemma NotPdfIsOneImage(bytes: Bytes)
    ensures Extraction(bytes, NotPdf).text == ""
    ensures Extraction(bytes, NotPdf).images == [EmbeddedImage(bytes, "image/png")]
  {
  }

  /** Every image of a PDF is one of its pages' images, tagged JPEG exactly when its
      lower-cased name ends in "jpg" or "jpeg" and PNG otherwise. */
  lemma {:induction false} PageImagesMime(pages: seq<Page>, k: nat)
    requires k < |PageImages(pages)|
    ensures exists p, i ::
      (&& 0 <= p < |pages| && pages[p].images.Some?
       && 0 <= i < |pages[p].images.value|
       && PageImages(pages)[k].data == pages[p].images.value[i].data
       && (PageImages(pages)[k].mime == "image/jpeg" <==>
             EndsWith(Lower(pages[p].images.value[i].name), "jpg") || EndsWith(Lower(pages[p].images.value[i].name), "jpeg"))
       && (PageImages(pages)[k].mime == "image/jpeg" || PageImages(pages)[k].mime == "image/png"))
  {
    var init := pages[..|pages| - 1];
    var last := pages[|pages| - 1].images.GetOr([]);
    if k < |PageImages(init)| {
      PageImagesMime(init, k);
      var p, i :| 0 <= p < |init| && init[p].images.Some?
        && 0 <= i < |init[p].images.value|
        && PageImages(init)[k].data == init[p].images.value[i].data
        && (PageImages(init)[k].mime == "image/jpeg" <==>
              EndsWith(Lower(init[p].images.value[i].name), "jpg") || EndsWith(Lower(init[p].images.value[i].name), "jpeg"))
        && (PageImages(init)[k].mime == "image/jpeg" || PageImages(init)[k].mime == "image/png");
      assert init[p] == pages[p];
    } else {
      var i := k - |PageImages(init)|;
      assert PageImages(pages)[k] == Embedded(last)[i];
      assert pages[|pages| - 1].images.Some?;
    }
  }

  // ---------------------------------------------------------------------------
  // Prompt content

  /** An uploaded file: its name, its bytes and what the PDF library makes of them. */
  datatype Upload = Upload(name: string, bytes: Bytes, parsed: ParsedFile)

  /** One entry of the user message's content. */
  datatype Part = TextPart(text: string) | ImagePart(data: Bytes, mimeType: string)

  const MAX_IMAGES_PER_FILE := 2
  const MAX_PROMPT_TEXT := 24000

  function TextOf(f: Upload): string {
    Extraction(f.bytes, f.parsed).text
  }

  /** The text sections of the files that have text, each headed "FILE: <name>". */
  function Sections(files: seq<Upload>): (sections: seq<string>)
    ensures sections == [] <==> forall i :: 0 <= i < |files| ==> TextOf(files[i]) == ""
  {
    if files == [] then []
    else
      var init := files[..|files| - 1];
      var f := files[|files| - 1];
      assert forall i :: 0 <= i < |init| ==> init[i] == files[i];
      Sections(init) + (if TextOf(f) != "" then ["FILE: " + f.name + "\n" + TextOf(f)] else [])
  }

  function ImageParts(images: seq<EmbeddedImage>): seq<Part> {
    seq(|images|, i requires 0 <= i < |images| => ImagePart(images[i].data, images[i].mime))
  }

  /** Converting one more image appends its part. */
  lemma ImagePartsStep(images: seq<EmbeddedImage>, j: nat)
    requires j < |images|
    ensures ImageParts(images[..j + 1]) == ImageParts(images[..j]) + [ImagePart(images[j].data, images[j].mime)]
  {
  }

  /** The image parts of all files: at most the first two images of each, in file order. */
  function FileImageParts(files: seq<Upload>): (parts: seq<Part>)
    ensures |parts| <= MAX_IMAGES_PER_FILE * |files|
    ensures forall i :: 0 <= i < |parts| ==> parts[i].ImagePart?
  {
    if files == [] then []
    else
      var f := files[|files| - 1];
      FileImageParts(files[..|files| - 1])
        + ImageParts(Take(Extraction(f.bytes, f.parsed).images, MAX_IMAGES_PER_FILE))
  }

  /** Taking one more file adds its section, if it has text, and its first two images. */
  lemma FilesStep(files: seq<Upload>, k: nat)
    requires k < |files|
    ensures var f := files[k];
      && Sections(files[..k + 1])
         == Sections(files[..k]) + (if TextOf(f) != "" then ["FILE: " + f.name + "\n" + TextOf(f)] else [])
      && FileImageParts(files[..k + 1])
         == FileImageParts(files[..k]) + ImageParts(Take(Extraction(f.bytes, f.parsed).images, MAX_IMAGES_PER_FILE))
  {
    assert files[..k + 1][..k] == files[..k];
  }

  /** The user message's content, stated without the loops. */
  function PromptContent(files: seq<Upload>): seq<Part> {
    var sections := Sections(files);
    (if sections == [] then [] else [TextPart(Take(Join(sections, "\n\n"), MAX_PROMPT_TEXT))])
      + FileImageParts(files)
  }

  /** The inner loop of the content assembly: append an image part per image. */
  method AppendImageParts(content: seq<Part>, images: seq<EmbeddedImage>) returns (r: seq<Part>)
    ensures r == content + ImageParts(images)
  {
    r := content;
    for j := 0 to |images|
      invariant r == content + ImageParts(images[..j])
    {
      ImagePartsStep(images, j);
      r := r + [ImagePart(images[j].data, images[j].mime)];
    }
    assert images[..|images|] == images;
  }

  /** The content assembly of `analyze_plans`: collect each file's text section and its
      first two images, then put the joined, truncated text in front when there is any. */
  method BuildContent(files: seq<Upload>) returns (content: seq<Part>)
    ensures content == PromptContent(files)
  {
    var allText: seq<string> := [];
    content := [];
    for k := 0 to |files|
      invariant allText == Sections(files[..k])
      invariant content == FileImageParts(files[..k])
    {
      var f := files[k];
      var payload := ExtractTextAndImages(f.bytes, f.parsed);
      assert payload.text == TextOf(f);
      if payload.text != "" {
        allText := allText + ["FILE: " + f.name + "\n" + payload.text];
      }
      var capped := Take(payload.images, MAX_IMAGES_PER_FILE);
      content := AppendImageParts(content, capped);
      FilesStep(files, k);
    }
    assert files[..|files|] == files;
    if allText != [] {
      content := [TextPart(Take(Join(allText, "\n\n"), MAX_PROMPT_TEXT))] + content;
    }
  }

  /** The content has at most two images per file; a text part, if any, is the first
      part and holds at most 24000 characters. */
  lemma PromptBounds(files: seq<Upload>)
    ensures |PromptContent(files)| <= 1 + 2 * |files|
    ensures forall i :: 0 <= i < |PromptContent(files)| && PromptContent(files)[i].TextPart? ==>
      (i == 0 && |PromptContent(files)[i].text| <= 24000)
  {
  }

  /** The content starts with a text part exactly when some file yields text, and that
      text starts with the first such file's "FILE: <name>" section. */
  lemma PromptTextPresence(files: seq<Upload>)
    ensures (|PromptContent(files)| > 0 && PromptContent(files)[0].TextPart?)
        <==> exists i :: 0 <= i < |files| && TextOf(files[i]) != ""
    ensures Sections(files) != [] ==>
      var first := Sections(files)[0];
      PromptContent(files)[0].text == Take(Join(Sections(files), "\n\n"), 24000)
      && (|first| <= 24000 ==>
            |first| <= |PromptContent(files)[0].text| && PromptContent(files)[0].text[..|first|] == first)
  {
    var sections := Sections(files);
    if sections != [] {
      JoinStartsWithFirst(sections, "\n\n");
    } else {
      var images := FileImageParts(files);
      assert images == [] || images[0].ImagePart?;
    }
  }

  // ---------------------------------------------------------------------------
  // The sanity pass over the model's reply

  /** How the sanity pass fails: the exceptions Python would raise. */
  datatype SanityError =
    | ItemsNotIterable               // `items` is null, a number or a boolean
    | ItemNotAnObject(index: nat)    // an item without `.get`
    | TotalCostNotANumber(index: nat)
    | SubtotalNotANumber

  /** `float(i.get("total_cost", 0))` for the item at `index`. */
  function ItemCost(item: Json, index: nat, parseFloat: string -> Option<real>): Result<real, SanityError> {
    match item
    case Obj(m) =>
      if "total_cost" !in m then Success(0.0)
      else (match AsFloat(m["total_cost"], parseFloat)
        case Some(x) => Success(x)
        case None => Failure(TotalCostNotANumber(index)))
    case _ => Failure(ItemNotAnObject(index))
  }

  /** `sum(...)` over a list of items, from left to right, stopping at the first failure. */
  function SumTotalCosts(items: seq<Json>, parseFloat: string -> Option<real>): Result<real, SanityError> {
    if items == [] then Success(0.0)
    else match SumTotalCosts(items[..|items| - 1], parseFloat)
      case Failure(e) => Failure(e)
      case Success(s) =>
        (match ItemCost(items[|items| - 1], |items| - 1, parseFloat)
         case Failure(e) => Failure(e)
         case Success(c) => Success(s + c))
  }

  /** The same sum over whatever `items` is: a list is summed, an empty string or object
      sums to 0, a non-empty one fails on its first element (a key or a character). */
  function ItemsTotal(items: Json, parseFloat: string -> Option<real>): Result<real, SanityError> {
    match items
    case Arr(a) => SumTotalCosts(a, parseFloat)
    case Str(s) => if s == "" then Success(0.0) else Failure(ItemNotAnObject(0))
    case Obj(m) => if m == map[] then Success(0.0) else Failure(ItemNotAnObject(0))
    case _ => Failure(ItemsNotIterable)
  }

  function ItemsOf(j: JsonObject): Json {
    if "items" in j then j["items"] else Arr([])
  }

  /** The reply after the sanity pass, stated without the loop. */
  function SanityOf(j: JsonObject, parseFloat: string -> Option<real>): (r: Result<JsonObject, SanityError>)
    ensures r.Failure? <==> ItemsTotal(ItemsOf(j), parseFloat).Failure?
                            || ("subtotal" in j && AsFloat(j["subtotal"], parseFloat).None?)
    ensures r.Success? ==> r.value.Keys == j.Keys + {"subtotal", "currency"}
    ensures r.Success? ==> forall k :: k in j && k != "subtotal" && k != "currency" ==> r.value[k] == j[k]
    ensures r.Success? ==> r.value["currency"] == (if "currency" in j then j["currency"] else Str("USD"))
    ensures r.Success? && "subtotal" in j ==> r.value["subtotal"] == Num(AsFloat(j["subtotal"], parseFloat).value)
    ensures r.Success? && "subtotal" !in j ==> r.value["subtotal"] == Num(ItemsTotal(ItemsOf(j), parseFloat).value)
  {
    match ItemsTotal(ItemsOf(j), parseFloat)
    case Failure(e) => Failure(e)
    case Success(sum) =>
      var subtotal := if "subtotal" in j then AsFloat(j["subtotal"], parseFloat) else Some(sum);
      match subtotal
      case None => Failure(SubtotalNotANumber)
      case Some(x) =>
        var withSubtotal := j["subtotal" := Num(x)];
        Success(withSubtotal["currency" := if "currency" in j then j["currency"] else Str("USD")])
  }

  /** Once the sum has failed on a prefix, it fails in the same way on the whole list. */
  lemma {:induction false} SumFailurePersists(items: seq<Json>, k: nat, parseFloat: string -> Option<real>)
    requires k <= |items|
    requires SumTotalCosts(items[..k], parseFloat).Failure?
    ensures SumTotalCosts(items, parseFloat) == SumTotalCosts(items[..k], parseFloat)
    decreases |items| - k
  {
    if k < |items| {
      assert items[..k + 1][..k] == items[..k];
      SumFailurePersists(items, k + 1, parseFloat);
    } else {
      assert items[..k] == items;
    }
  }

  /** The sanity pass of `analyze_plans` and `revise_estimate`: sum the items' costs,
      then fill in `subtotal` and `currency` where they are missing. */
  method Sanitize(reply: JsonObject, parseFloat: string -> Option<real>) returns (r: Result<JsonObject, SanityError>)
    ensures r == SanityOf(reply, parseFloat)
  {
    var j := reply;
    var items := if "items" in j then j["items"] else Arr([]);
    var sum := 0.0;
    match items {
      case Arr(a) =>
        for k := 0 to |a|
          invariant SumTotalCosts(a[..k], parseFloat) == Success(sum)
        {
          var cost := ItemCost(a[k], k, parseFloat);
          assert a[..k + 1][..k] == a[..k];
          if cost.Failure? {
            SumFailurePersists(a, k + 1, parseFloat);
            return Failure(cost.error);
          }
          sum := sum + cost.value;
        }
        assert a[..|a|] == a;
      case Str(s) =>
        if s != "" {
          return Failure(ItemNotAnObject(0));
        }
      case Obj(m) =>
        if m != map[] {
          return Failure(ItemNotAnObject(0));
        }
      case _ =>
        return Failure(ItemsNotIterable);
    }
    var subtotal := if "subtotal" in j then AsFloat(j["subtotal"], parseFloat) else Some(sum);
    if subtotal.None? {
      return Failure(SubtotalNotANumber);
    }
    j := j["subtotal" := Num(subtotal.value)];
    j := j["currency" := if "currency" in j then j["currency"] else Str("USD")];
    r := Success(j);
  }

  /** A subtotal given as numeric text is converted, not rejected, and the missing
      currency becomes "USD". */
  lemma NumericTextSubtotal(parseFloat: string -> Option<real>)
    requires parseFloat("50000") == Some(50000.0)
    ensures SanityOf(map["subtotal" := Str("50000")], parseFloat)
         == Success(map["subtotal" := Num(50000.0), "currency" := Str("USD")])
  {
    var j: JsonObject := map["subtotal" := Str("50000")];
    var expected: JsonObject := map["subtotal" := Num(50000.0), "currency" := Str("USD")];
    assert ItemsOf(j) == Arr([]);
    assert SumTotalCosts([], parseFloat) == Success(0.0);
    assert AsFloat(j["subtotal"], parseFloat) == Some(50000.0);
    var r := SanityOf(j, parseFloat);
    assert r.Success?;
    assert r.value.Keys == expected.Keys;
    assert r.value == expected;
  }

  /** Applying the sanity pass to its own output changes nothing. */
  lemma SanityIdempotent(j: JsonObject, parseFloat: string -> Option<real>)
    requires SanityOf(j, parseFloat).Success?
    ensures SanityOf(SanityOf(j, parseFloat).value, parseFloat) == SanityOf(j, parseFloat)
  {
    var j' := SanityOf(j, parseFloat).value;
    assert ItemsOf(j') == ItemsOf(j);
    assert j'["subtotal"].Num? && "currency" in j';
    var r := SanityOf(j', parseFloat).value;
    assert r["subtotal"] == j'["subtotal"];
    assert r.Keys == j'.Keys;
    assert forall k :: k in r ==> r[k] == j'[k];
    assert r == j';
  }

  /** Whether an item's cost converts does not depend on its position. */
  lemma ItemCostAnyIndex(item: Json, i: nat, j: nat, parseFloat: string -> Option<real>)
    requires ItemCost(item, i, parseFloat).Success?
    ensures ItemCost(item, j, parseFloat) == ItemCost(item, i, parseFloat)
  {
  }

  /** The costs of a list of items add up over concatenation. */
  lemma {:induction false} SumTotalCostsAppend(a: seq<Json>, b: seq<Json>, parseFloat: string -> Option<real>)
    requires SumTotalCosts(a, parseFloat).Success? && SumTotalCosts(b, parseFloat).Success?
    ensures SumTotalCosts(a + b, parseFloat) == Success(SumTotalCosts(a, parseFloat).value + SumTotalCosts(b, parseFloat).value)
    decreases |b|
  {
    if b == [] {
      assert a + b == a;
    } else {
      var init := b[..|b| - 1];
      var last := b[|b| - 1];
      assert (a + b)[..|a + b| - 1] == a + init;
      assert (a + b)[|a + b| - 1] == last;
      SumTotalCostsAppend(a, init, parseFloat);
      ItemCostAnyIndex(last, |b| - 1, |a + b| - 1, parseFloat);
    }
  }

  // ---------------------------------------------------------------------------
  // analyze_plans and revise_estimate

  /** The placeholder estimate returned when no API key is set. */
  function FallbackEstimate(): JsonObject {
    map[
      "items" := Arr([Obj(map[
        "name" := Str("General Scope"), "scope" := Str("Rough estimate"), "qty" := Num(1.0),
        "unit" := Str("ls"), "unit_cost" := Num(50000.0), "total_cost" := Num(50000.0),
        "notes" := Str("No AI key set; placeholder.")])]),
      "assumptions" := Arr([Obj(map[
        "topic" := Str("Global"), "assumption" := Str("No finishes or quantities in plans"),
        "confidence" := Num(0.3)])]),
      "questions" := Arr([Str("Provide total heated sqft"), Str("Provide finish level for kitchen and baths")]),
      "currency" := Str("USD"),
      "subtotal" := Num(50000.0)
    ]
  }

  /** The placeholder has one "General Scope" lump-sum item of 50000, a subtotal equal to
      that item's total cost, currency USD, one assumption with confidence 0.3 and two
      non-empty questions. */
  lemma FallbackShape()
    ensures var j := FallbackEstimate();
      && j["items"].Arr? && |j["items"].elems| == 1
      && var item := j["items"].elems[0];
      && item.Obj?
      && item.fields["name"] == Str("General Scope") && item.fields["qty"] == Num(1.0)
      && item.fields["unit"] == Str("ls") && item.fields["unit_cost"] == Num(50000.0)
      && item.fields["total_cost"] == Num(50000.0)
      && j["subtotal"] == item.fields["total_cost"]
      && j["currency"] == Str("USD")
      && j["assumptions"].Arr? && |j["assumptions"].elems| == 1
      && j["assumptions"].elems[0].Obj? && j["assumptions"].elems[0].fields["confidence"] == Num(0.3)
      && j["questions"].Arr? && |j["questions"].elems| == 2
      && forall i :: 0 <= i < 2 ==> j["questions"].elems[i].Str? && j["questions"].elems[i].s != ""
  {
  }

  /** The placeholder already passes the sanity pass unchanged: its subtotal is the sum of
      its items' total costs. */
  lemma FallbackIsSane(parseFloat: string -> Option<real>)
    ensures ItemsTotal(FallbackEstimate()["items"], parseFloat) == Success(50000.0)
    ensures SanityOf(FallbackEstimate(), parseFloat) == Success(FallbackEstimate())
  {
    var j := FallbackEstimate();
    var items := j["items"].elems;
    assert items[..0] == [];
    assert SumTotalCosts(items, parseFloat) == Success(50000.0);
    var r := SanityOf(j, parseFloat).value;
    assert r.Keys == j.Keys;
    assert forall k :: k in r ==> r[k] == j[k];
    assert r == j;
  }

  /** `analyze_plans`: with no API key, the placeholder whatever the files; otherwise the
      reply of the service to the assembled content, after the sanity pass. */
  method AnalyzePlans(files: seq<Upload>, apiKey: string, service: seq<Part> -> JsonObject,
                      parseFloat: string -> Option<real>)
    returns (r: Result<JsonObject, SanityError>)
    ensures apiKey == "" ==> r == Success(FallbackEstimate())
    ensures apiKey != "" ==> r == SanityOf(service(PromptContent(files)), parseFloat)
  {
    if apiKey == "" {
      return Success(FallbackEstimate());
    }
    var content := BuildContent(files);
    var reply := service(content);
    r := Sanitize(reply, parseFloat);
  }

  /** `revise_estimate`: with no API key, `current` unchanged; otherwise the reviser's
      reply to the current estimate and the answers, after the same sanity pass. */
  method ReviseEstimate(current: JsonObject, answers: JsonObject, apiKey: string,
                        reviser: (JsonObject, JsonObject) -> JsonObject, parseFloat: string -> Option<real>)
    returns (r: Result<JsonObject, SanityError>)
    ensures apiKey == "" ==> r == Success(current)
    ensures apiKey != "" ==> r == SanityOf(reviser(current, answers), parseFloat)
  {
    if apiKey == "" {
      return Success(current);
    }
    var reply := reviser(current, answers);
    r := Sanitize(reply, parseFloat);
  }
}
