/** The property editor (`PropertyForm`): a draft record edited field by field,
    two string lists (features and image URLs) grown from a text box and shrunk
    by position, and a submit that inserts or updates the `properties` row. */
module PropertyForm {
  import opened Text
  import opened Remote
  import opened Routes

  const LoadFailedMessage := "Failed to load property"
  const SaveFailedMessage := "Failed to save property"

  /** The draft (`PropertyFormData`); the three counts hold whatever `parseInt` gave. */
  datatype FormData = FormData(
    title: string,
    price: string,
    image: string,
    beds: Numeric,
    baths: Numeric,
    sqft: Numeric,
    description: string,
    features: seq<string>,
    location: string,
    images: seq<string>)

  /** `initialFormData`: empty strings, zero counts, no features, no images. */
  const InitialFormData := FormData("", "", "", Num(0), Num(0), Num(0), "", [], "", [])

  /** The inputs wired to `handleInputChange`, by their `name` attribute. */
  datatype Field = Title | Price | Image | Location | Beds | Baths | Sqft | Description

  /** `['beds', 'baths', 'sqft'].includes(name)` */
  predicate IsCount(f: Field) {
    f == Beds || f == Baths || f == Sqft
  }

  datatype FieldValue = TextValue(text: string) | CountValue(count: Numeric)

  function Get(d: FormData, f: Field): FieldValue {
    match f
    case Title => TextValue(d.title)
    case Price => TextValue(d.price)
    case Image => TextValue(d.image)
    case Location => TextValue(d.location)
    case Description => TextValue(d.description)
    case Beds => CountValue(d.beds)
    case Baths => CountValue(d.baths)
    case Sqft => CountValue(d.sqft)
  }

  /** What a count input stores: the empty string reads as 0, anything else as
      `parseInt(value, 10)`. */
  function ParseCount(value: string): Numeric {
    if value == "" then Num(0) else ParseInt(value)
  }

  /** A count input reads the empty string as 0, a string of digits as its
      decimal value, and non-empty text without any digit as NaN. */
  lemma ParseCountReadsDecimal(value: string)
    ensures value == "" ==> ParseCount(value) == Num(0)
    ensures value != "" && AllDigits(value) ==> ParseCount(value) == Num(DigitsValue(value))
    ensures value != "" && (forall i :: 0 <= i < |value| ==> !IsDigit(value[i])) ==> ParseCount(value) == NaN
  {
    if value != "" && AllDigits(value) {
      assert value + [] == value;
      ParseIntOfDigits(value, []);
    }
    if forall i :: 0 <= i < |value| ==> !IsDigit(value[i]) {
      ParseIntWithoutDigits(value);
    }
  }

  /** `handleInputChange`: the named field gets the typed value (parsed for a
      count), and every other field, the feature list and the image list are
      left as they were. */
  function SetField(d: FormData, f: Field, value: string): (r: FormData)
    ensures Get(r, f) == if IsCount(f) then CountValue(ParseCount(value)) else TextValue(value)
    ensures forall g :: g != f ==> Get(r, g) == Get(d, g)
    ensures r.features == d.features && r.images == d.images
  {
    match f
    case Title => d.(title := value)
    case Price => d.(price := value)
    case Image => d.(image := value)
    case Location => d.(location := value)
    case Description => d.(description := value)
    case Beds => d.(beds := ParseCount(value))
    case Baths => d.(baths := ParseCount(value))
    case Sqft => d.(sqft := ParseCount(value))
  }

  /** A list element `addFeature` and `addImage` can produce: non-empty, with no
      whitespace at either end. */
  predicate Clean(x: string) {
    x != "" && Trimmed(x)
  }

  predicate AllClean(list: seq<string>) {
    forall i :: 0 <= i < |list| ==> Clean(list[i])
  }

  /** `[...list, text.trim()]` when `text.trim()` is non-empty, `list` otherwise:
      the old list is kept as a prefix, and at most one clean element, the
      trimmed text, is added after it. */
  function AppendTrimmed(list: seq<string>, text: string): (r: seq<string>)
    ensures |list| <= |r| <= |list| + 1 && r[..|list|] == list
    ensures |r| == |list| + 1 <==> !AllWhitespace(text)
    ensures |r| == |list| + 1 ==> r[|list|] == Trim(text) && Clean(r[|list|])
  {
    var trimmed := Trim(text);
    if trimmed != "" then list + [trimmed] else list
  }

  /** Whatever whitespace surrounds the typed text, the element appended is the
      text between it; duplicates of earlier elements are appended all the same. */
  lemma AppendPadded(list: seq<string>, before: string, x: string, after: string)
    requires AllWhitespace(before) && AllWhitespace(after) && Clean(x)
    ensures AppendTrimmed(list, before + x + after) == list + [x]
  {
    TrimOfPadded(before, x, after);
  }

  /** `list.filter((_, i) => i !== index)`, for the part of `list` that starts at `position`. */
  function FilterFrom<T>(list: seq<T>, index: int, position: int): seq<T>
    decreases |list|
  {
    if list == [] then []
    else (if position != index then [list[0]] else []) + FilterFrom(list[1..], index, position + 1)
  }

  lemma {:induction false} FilterFromSplices<T>(list: seq<T>, index: int, position: int)
    ensures FilterFrom(list, index, position) ==
      if position <= index < position + |list| then list[..index - position] + list[index - position + 1..]
      else list
    decreases |list|
  {
    if list != [] {
      FilterFromSplices(list[1..], index, position + 1);
      if position == index {
        assert list[..0] + list[1..] == list[1..];
      } else if position < index < position + |list| {
        SpliceAfterHead(list, index - position);
      } else {
        assert [list[0]] + list[1..] == list;
      }
    }
  }

  lemma SpliceAfterHead<T>(list: seq<T>, k: int)
    requires 0 < k < |list|
    ensures [list[0]] + (list[1..][..k - 1] + list[1..][k..]) == list[..k] + list[k + 1..]
  {
    assert list[1..][..k - 1] == list[1..k];
    assert list[1..][k..] == list[k + 1..];
    assert list[..k] == [list[0]] + list[1..k];
  }

  /** `removeFeature` / `removeImage`: drop the element at `index` and keep the
      others in order; an index out of range leaves the list as it is. */
  function WithoutIndex<T>(list: seq<T>, index: int): (r: seq<T>)
    ensures 0 <= index < |list| ==> r == list[..index] + list[index + 1..]
    ensures 0 <= index < |list| ==>
      |r| == |list| - 1 && forall j :: 0 <= j < |r| ==> r[j] == list[if j < index then j else j + 1]
    ensures !(0 <= index < |list|) ==> r == list
  {
    FilterFromSplices(list, index, 0);
    FilterFrom(list, index, 0)
  }

  /** One user action on the draft, with the text box's content where it matters. */
  datatype Edit =
    | TypeField(field: Field, value: string)
    | AddFeature(text: string)
    | RemoveFeature(index: int)
    | AddImage(url: string)
    | RemoveImage(index: int)

  function ApplyEdit(d: FormData, e: Edit): FormData {
    match e
    case TypeField(f, value) => SetField(d, f, value)
    case AddFeature(text) => d.(features := AppendTrimmed(d.features, text))
    case RemoveFeature(i) => d.(features := WithoutIndex(d.features, i))
    case AddImage(url) => d.(images := AppendTrimmed(d.images, url))
    case RemoveImage(i) => d.(images := WithoutIndex(d.images, i))
  }

  function ApplyEdits(d: FormData, edits: seq<Edit>): FormData
    decreases |edits|
  {
    if edits == [] then d else ApplyEdits(ApplyEdit(d, edits[0]), edits[1..])
  }

  lemma AppendKeepsClean(list: seq<string>, text: string)
    requires AllClean(list)
    ensures AllClean(AppendTrimmed(list, text))
  {
    var r := AppendTrimmed(list, text);
    forall i | 0 <= i < |r| ensures Clean(r[i]) {
      if i < |list| { assert r[i] == r[..|list|][i]; }
    }
  }

  lemma {:induction false} EditsKeepListsClean(d: FormData, edits: seq<Edit>)
    requires AllClean(d.features) && AllClean(d.images)
    ensures AllClean(ApplyEdits(d, edits).features) && AllClean(ApplyEdits(d, edits).images)
    decreases |edits|
  {
    if edits != [] {
      var e := edits[0];
      match e {
        case AddFeature(text) => AppendKeepsClean(d.features, text);
        case AddImage(url) => AppendKeepsClean(d.images, url);
        case _ =>
      }
      EditsKeepListsClean(ApplyEdit(d, e), edits[1..]);
    }
  }

  /** A draft started from `initialFormData` only ever holds features and image
      URLs that are non-empty and carry no surrounding whitespace, whatever the
      user types, adds and removes. */
  lemma NewDraftListsStayClean(edits: seq<Edit>)
    ensures AllClean(ApplyEdits(InitialFormData, edits).features)
    ensures AllClean(ApplyEdits(InitialFormData, edits).images)
  {
    EditsKeepListsClean(InitialFormData, edits);
  }

  /** Feature edits never touch the images, and image edits never touch the features. */
  lemma ListEditsAreIndependent(d: FormData, e: Edit)
    ensures (e.AddFeature? || e.RemoveFeature?) ==> ApplyEdit(d, e).images == d.images
    ensures (e.AddImage? || e.RemoveImage?) ==> ApplyEdit(d, e).features == d.features
    ensures e.TypeField? ==> ApplyEdit(d, e).features == d.features && ApplyEdit(d, e).images == d.images
  {
  }

  /** A route `id` is used when it is truthy: present and non-empty. */
  predicate HasId(id: Option<string>) {
    id.Some? && id.value != ""
  }

  datatype SaveRequest = Update(id: string, data: FormData) | Insert(data: FormData)

  /** Submit updates the row with the route's id when there is one, and inserts
      the draft otherwise; either way the whole draft is sent. */
  function SaveRequestFor(id: Option<string>, d: FormData): (r: SaveRequest)
    ensures r.Update? <==> HasId(id)
    ensures r.Update? ==> r.id == id.value
    ensures r.data == d
  {
    if HasId(id) then Update(id.value, d) else Insert(d)
  }

  /** The submit button's label. */
  function SubmitLabel(loading: bool, id: Option<string>): (r: string)
    ensures r == "Saving..." <==> loading
  {
    if loading then "Saving..." else if HasId(id) then "Update Property" else "Create Property"
  }

  /** When idle, the button announces the request a submit will make. */
  lemma SubmitLabelMatchesRequest(id: Option<string>, d: FormData)
    ensures SubmitLabel(false, id) == "Update Property" <==> SaveRequestFor(id, d).Update?
    ensures SubmitLabel(false, id) == "Create Property" <==> SaveRequestFor(id, d).Insert?
  {
  }

  /** The editor screen's state, with the route's `id` fixed for its lifetime. */
  class PropertyFormPage {
    const id: Option<string>
    var formData: FormData
    var loading: bool
    var error: Option<string>
    var newFeature: string
    var newImage: string
    /** The last path passed to `navigate`, if any. */
    var navigatedTo: Option<string>

    constructor (id: Option<string>)
      ensures this.id == id && formData == InitialFormData
      ensures !loading && error.None? && newFeature == "" && newImage == "" && navigatedTo.None?
    {
      this.id := id;
      formData := InitialFormData;
      loading := false;
      error := None;
      newFeature := "";
      newImage := "";
      navigatedTo := None;
    }

    /** The mount effect: fetch the row being edited, only when there is an id;
      a row that comes back replaces the draft wholesale. */
    method LoadExisting(reply: DbReply<Option<FormData>>) returns (requested: bool)
      modifies this
      ensures requested == HasId(id)
      ensures !requested ==> formData == old(formData) && error == old(error)
      ensures requested && reply.DbOk? && reply.data.Some? ==> formData == reply.data.value && error == old(error)
      ensures requested && reply.DbOk? && reply.data.None? ==> formData == old(formData) && error == old(error)
      ensures requested && reply.DbFailed? ==> formData == old(formData) && error == Some(LoadFailedMessage)
      ensures loading == old(loading) && newFeature == old(newFeature) && newImage == old(newImage)
      ensures navigatedTo == old(navigatedTo)
    {
      requested := HasId(id);
      if requested {
        match reply {
          case DbOk(data) =>
            if data.Some? {
              formData := data.value;
            }
          case DbFailed =>
            error := Some(LoadFailedMessage);
        }
      }
    }

    method HandleInputChange(field: Field, value: string)
      modifies this
      ensures formData == SetField(old(formData), field, value)
      ensures loading == old(loading) && error == old(error) && navigatedTo == old(navigatedTo)
      ensures newFeature == old(newFeature) && newImage == old(newImage)
    {
      var parsed: FieldValue := TextValue(value);
      if IsCount(field) {
        parsed := CountValue(if value == "" then Num(0) else ParseInt(value));
      }
      match field {
        case Title => formData := formData.(title := parsed.text);
        case Price => formData := formData.(price := parsed.text);
        case Image => formData := formData.(image := parsed.text);
        case Location => formData := formData.(location := parsed.text);
        case Description => formData := formData.(description := parsed.text);
        case Beds => formData := formData.(beds := parsed.count);
        case Baths => formData := formData.(baths := parsed.count);
        case Sqft => formData := formData.(sqft := parsed.count);
      }
    }

    /** The feature text box's `onChange`. */
    method TypeNewFeature(text: string)
      modifies this
      ensures newFeature == text
      ensures formData == old(formData) && newImage == old(newImage)
      ensures loading == old(loading) && error == old(error) && navigatedTo == old(navigatedTo)
    {
      newFeature := text;
    }

    /** The image URL text box's `onChange`. */
    method TypeNewImage(url: string)
      modifies this
      ensures newImage == url
      ensures formData == old(formData) && newFeature == old(newFeature)
      ensures loading == old(loading) && error == old(error) && navigatedTo == old(navigatedTo)
    {
      newImage := url;
    }

    /** `addFeature`: append the trimmed text box and empty the box, unless the
      trimmed text is empty, in which case nothing changes. */
    method AddFeature()
      modifies this
      ensures formData == old(formData).(features := AppendTrimmed(old(formData).features, old(newFeature)))
      ensures newFeature == if AllWhitespace(old(newFeature)) then old(newFeature) else ""
      ensures newImage == old(newImage)
      ensures loading == old(loading) && error == old(error) && navigatedTo == old(navigatedTo)
    {
      var trimmed := Trim(newFeature);
      if trimmed != "" {
        formData := formData.(features := formData.features + [trimmed]);
        newFeature := "";
      }
    }

    /** `removeFeature(index)`. */
    method RemoveFeature(index: int)
      modifies this
      ensures formData == old(formData).(features := WithoutIndex(old(formData).features, index))
      ensures newFeature == old(newFeature) && newImage == old(newImage)
      ensures loading == old(loading) && error == old(error) && navigatedTo == old(navigatedTo)
    {
      formData := formData.(features := FilterFrom(formData.features, index, 0));
    }

    /** `addImage`: as `addFeature`, on the image URL list and its text box. */
    method AddImage()
      modifies this
      ensures formData == old(formData).(images := AppendTrimmed(old(formData).images, old(newImage)))
      ensures newImage == if AllWhitespace(old(newImage)) then old(newImage) else ""
      ensures newFeature == old(newFeature)
      ensures loading == old(loading) && error == old(error) && navigatedTo == old(navigatedTo)
    {
      var trimmed := Trim(newImage);
      if trimmed != "" {
        formData := formData.(images := formData.images + [trimmed]);
        newImage := "";
      }
    }

    /** `removeImage(index)`. */
    method RemoveImage(index: int)
      modifies this
      ensures formData == old(formData).(images := WithoutIndex(old(formData).images, index))
      ensures newFeature == old(newFeature) && newImage == old(newImage)
      ensures loading == old(loading) && error == old(error) && navigatedTo == old(navigatedTo)
    {
      formData := formData.(images := FilterFrom(formData.images, index, 0));
    }

    /** `handleSubmit`: send the draft as an update (with an id) or an insert
      (without); on success go to the dashboard, on failure show the save
      error; either way end not loading. `saved` says how the query came back. */
    method HandleSubmit(saved: bool) returns (request: SaveRequest)
      modifies this
      ensures request == SaveRequestFor(id, old(formData))
      ensures formData == old(formData) && !loading
      ensures saved ==> error.None? && navigatedTo == Some(DashboardPath)
      ensures !saved ==> error == Some(SaveFailedMessage) && navigatedTo == old(navigatedTo)
      ensures newFeature == old(newFeature) && newImage == old(newImage)
    {
      loading := true;
      error := None;
      if HasId(id) {
        request := Update(id.value, formData);
      } else {
        request := Insert(formData);
      }
      if saved {
        navigatedTo := Some(DashboardPath);
      } else {
        error := Some(SaveFailedMessage);
      }
      loading := false;
    }
  }
}
