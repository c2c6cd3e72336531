/** The hand-written product form of src/pages/NoFormLibrary.tsx: the
    initial draft, the validation rules, and the component's two pieces of
    state (`form`, `errors`) with the handlers that update them. */
module NoFormLibrary {
  import opened Wrappers
  import opened Types

  // ---------------------------------------------------------------------------
  // Constants
  // ---------------------------------------------------------------------------

  const MaxNameLength: nat := 500

  const NameRequired: string := "Name is required"
  const NameTooLong: string := "Name must not exceed 500 characters"
  const PriceNegative: string := "Price must be ≥ 0"
  const ImagesRequired: string := "Images field is required"
  const QuantityNegative: string := "Quantity must be ≥ 0"

  /** The fields `validate` looks at; every other key is never reported. */
  const CheckedFields: set<Field> := {Name, Price, Images, Quantity}

  /** `initialState`: empty required text, zero numbers, `false` flags, every
      optional field `null`. */
  const InitialState: ProductPayload := ProductPayload(
    name := "",
    price := 0.0,
    barcode := None,
    category := None,
    compareAtPrice := None,
    description := None,
    featured := false,
    images := "",
    isDefault := None,
    owner := None,
    published := false,
    quantity := 0.0,
    sku := None,
    tags := None
  )

  // ---------------------------------------------------------------------------
  // String length as JavaScript measures it
  // ---------------------------------------------------------------------------

  /** First code point outside the Basic Multilingual Plane. */
  const FirstAstral: int := 0x10000

  /** `s.length` in JavaScript: the number of UTF-16 code units, so a
      character at or above U+10000 (a surrogate pair) counts twice. */
  function Utf16Length(s: string): (n: nat)
    ensures |s| <= n <= 2 * |s|
    ensures n == 0 <==> s == []
  {
    if s == [] then 0
    else (if s[0] as int >= FirstAstral then 2 else 1) + Utf16Length(s[1..])
  }

  /** On text within the Basic Multilingual Plane the UTF-16 length is the
      character count. */
  lemma {:induction false} Utf16LengthBmp(s: string)
    requires forall i :: 0 <= i < |s| ==> s[i] as int < FirstAstral
    ensures Utf16Length(s) == |s|
  {
    if s != [] {
      Utf16LengthBmp(s[1..]);
    }
  }

  /** Text made only of characters above the Basic Multilingual Plane has
      twice as many UTF-16 code units as characters. */
  lemma {:induction false} Utf16LengthAstral(s: string)
    requires forall i :: 0 <= i < |s| ==> s[i] as int >= FirstAstral
    ensures Utf16Length(s) == 2 * |s|
  {
    if s != [] {
      Utf16LengthAstral(s[1..]);
    }
  }

  // ---------------------------------------------------------------------------
  // Validation rules, one field at a time
  // ---------------------------------------------------------------------------

  /** The message `validate` leaves for field `f` of draft `p`, if any. For the
      name the too-long check runs second and so wins; the two cannot both
      apply. Nothing is trimmed. */
  function FieldError(p: ProductPayload, f: Field): (r: Option<string>)
    ensures r.Some? ==> f in CheckedFields
  {
    match f
    case Name =>
      if Utf16Length(p.name) > MaxNameLength then Some(NameTooLong)
      else if Utf16Length(p.name) < 1 then Some(NameRequired)
      else None
    case Price => if p.price < 0.0 then Some(PriceNegative) else None
    case Images => if p.images == "" then Some(ImagesRequired) else None
    case Quantity => if p.quantity < 0.0 then Some(QuantityNegative) else None
    case _ => None
  }

  /** The error map of a draft: every field whose rule reports, with its message. */
  function Errors(p: ProductPayload): ErrorMap
  {
    map f | f in AllFields && FieldError(p, f).Some? :: FieldError(p, f).value
  }

  /** The draft passes validation. */
  predicate IsValid(p: ProductPayload)
  {
    Errors(p) == map[]
  }

  /** The local map `e` of `validate`: starts empty and is filled by the
      successive checks, the later name check overwriting the earlier. */
  method CheckDraft(p: ProductPayload) returns (e: ErrorMap)
    ensures e == Errors(p)
    ensures |e| == 0 <==> IsValid(p)
  {
    e := map[];
    if Utf16Length(p.name) < 1 {
      e := e[Name := NameRequired];
    }
    if Utf16Length(p.name) > MaxNameLength {
      e := e[Name := NameTooLong];
    }
    if p.price < 0.0 {
      e := e[Price := PriceNegative];
    }
    if p.images == "" {
      e := e[Images := ImagesRequired];
    }
    if p.quantity < 0.0 {
      e := e[Quantity := QuantityNegative];
    }
    SameVerdicts(p, e);
  }

  // ---------------------------------------------------------------------------
  // The form component
  // ---------------------------------------------------------------------------

  /** The component's state: the draft `form` and the `errors` of the last
      validation. */
  class ProductForm {
    var form: ProductPayload
    var errors: ErrorMap

    /** Mounting: `useState(initialState)` and `useState({})`. */
    constructor ()
      ensures form == InitialState && errors == map[]
    {
      form := InitialState;
      errors := map[];
    }

    /** `validate`: stores the draft's error map as `errors` (so nothing from
        an earlier run survives) and reports whether it is empty. The draft is
        not touched. */
    method Validate() returns (ok: bool)
      modifies this`errors
      ensures form == old(form)
      ensures errors == Errors(form)
      ensures ok <==> errors == map[]
    {
      var e := CheckDraft(form);
      errors := e;
      ok := |e| == 0;
    }

    /** The name input's `onChange`. */
    method SetName(value: string)
      modifies this`form
      ensures form == old(form).(name := value)
      ensures errors == old(errors)
    {
      form := form.(name := value);
    }

    /** The price input's `onChange`, after `Number(...)` coercion. */
    method SetPrice(value: Number)
      modifies this`form
      ensures form == old(form).(price := value)
      ensures errors == old(errors)
    {
      form := form.(price := value);
    }

    /** The images input's `onChange`. */
    method SetImages(value: string)
      modifies this`form
      ensures form == old(form).(images := value)
      ensures errors == old(errors)
    {
      form := form.(images := value);
    }

    /** The quantity input's `onChange`, after `Number(...)` coercion. */
    method SetQuantity(value: Number)
      modifies this`form
      ensures form == old(form).(quantity := value)
      ensures errors == old(errors)
    {
      form := form.(quantity := value);
    }

    /** The featured checkbox's `onChange`. */
    method SetFeatured(checked: bool)
      modifies this`form
      ensures form == old(form).(featured := checked)
      ensures errors == old(errors)
    {
      form := form.(featured := checked);
    }

    /** The published checkbox's `onChange`. */
    method SetPublished(checked: bool)
      modifies this`form
      ensures form == old(form).(published := checked)
      ensures errors == old(errors)
    {
      form := form.(published := checked);
    }

    /** `handleSubmit`: validate; on failure stop. Otherwise hand the draft to
        the POST (returned as `sent`) and reset the draft. */
    method Submit() returns (sent: Option<ProductPayload>)
      modifies this
      ensures errors == Errors(old(form))
      ensures IsValid(old(form)) ==> sent == Some(old(form)) && form == InitialState && errors == map[]
      ensures !IsValid(old(form)) ==> sent == None && form == old(form) && errors != map[]
    {
      var ok := Validate();
      if !ok {
        return None;
      }
      sent := Some(form);
      form := InitialState;
    }
  }

  // ---------------------------------------------------------------------------
  // Properties of the rules
  // ---------------------------------------------------------------------------

  /** The name rule: empty is "required", over 500 UTF-16 code units is "too
      long", and every UTF-16 length from 1 to 500 passes, whitespace-only
      names included. */
  lemma NameRule(p: ProductPayload)
    ensures p.name == [] <==> Name in Errors(p) && Errors(p)[Name] == NameRequired
    ensures Utf16Length(p.name) > MaxNameLength <==> Name in Errors(p) && Errors(p)[Name] == NameTooLong
    ensures 1 <= Utf16Length(p.name) <= MaxNameLength <==> Name !in Errors(p)
  {
  }

  /** A negative price is reported; zero and positive prices are not. */
  lemma PriceRule(p: ProductPayload)
    ensures p.price < 0.0 <==> Price in Errors(p)
    ensures Price in Errors(p) ==> Errors(p)[Price] == PriceNegative
  {
  }

  /** An empty images string is reported; any other is not. */
  lemma ImagesRule(p: ProductPayload)
    ensures p.images == "" <==> Images in Errors(p)
    ensures Images in Errors(p) ==> Errors(p)[Images] == ImagesRequired
  {
  }

  /** A negative quantity is reported; zero and positive quantities are not. */
  lemma QuantityRule(p: ProductPayload)
    ensures p.quantity < 0.0 <==> Quantity in Errors(p)
    ensures Quantity in Errors(p) ==> Errors(p)[Quantity] == QuantityNegative
  {
  }

  /** Only name, price, images and quantity are ever reported: the optional
      fields and the two flags are never checked. */
  lemma OnlyCheckedFieldsReported(p: ProductPayload)
    ensures Errors(p).Keys <= CheckedFields
  {
  }

  /** A map that gives every field its rule's verdict is the error map. */
  lemma SameVerdicts(p: ProductPayload, e: ErrorMap)
    requires forall f :: f in e <==> FieldError(p, f).Some?
    requires forall f :: f in e ==> e[f] == FieldError(p, f).value
    ensures e == Errors(p)
  {
  }

  /** A draft passes exactly when all four rules hold. */
  lemma ValidIffRulesHold(p: ProductPayload)
    ensures IsValid(p) <==>
      1 <= Utf16Length(p.name) <= MaxNameLength && p.price >= 0.0 && p.images != "" && p.quantity >= 0.0
  {
    NameRule(p);
    PriceRule(p);
    ImagesRule(p);
    QuantityRule(p);
    if 1 <= Utf16Length(p.name) <= MaxNameLength && p.price >= 0.0 && p.images != "" && p.quantity >= 0.0 {
      OnlyCheckedFieldsReported(p);
      assert Errors(p).Keys == {};
    }
  }

  /** Validating the initial draft fails on exactly the name and the images. */
  lemma InitialStateErrors()
    ensures Errors(InitialState) == map[Name := NameRequired, Images := ImagesRequired]
  {
  }

  /** The smallest complete draft: name "A", price 0, images "x", quantity 0,
      both flags off, every optional field absent. */
  const MinimalDraft: ProductPayload := InitialState.(name := "A", images := "x")

  /** The smallest complete draft passes validation. */
  lemma MinimalDraftIsValid()
    ensures IsValid(MinimalDraft)
  {
  }

  /** 300 copies of U+1D49C are 300 characters but 600 UTF-16 code units, so
      the name is reported as too long and the draft is refused. */
  lemma AstralNameTooLong()
    ensures Name in Errors(MinimalDraft.(name := seq(300, _ => '\U{1D49C}')))
    ensures Errors(MinimalDraft.(name := seq(300, _ => '\U{1D49C}')))[Name] == NameTooLong
    ensures !IsValid(MinimalDraft.(name := seq(300, _ => '\U{1D49C}')))
  {
    var name := seq(300, _ => '\U{1D49C}');
    Utf16LengthAstral(name);
    NameRule(MinimalDraft.(name := name));
  }

  /** A name of 500 characters from the Basic Multilingual Plane, whitespace
      only, is accepted. */
  lemma LongestBmpNameAccepted()
    ensures Name !in Errors(MinimalDraft.(name := seq(500, _ => ' ')))
  {
    var name := seq(500, _ => ' ');
    Utf16LengthBmp(name);
    NameRule(MinimalDraft.(name := name));
  }

  /** A field handler's edit leaves every other field's verdict as it was. */
  lemma EditKeepsOtherVerdicts(p: ProductPayload, q: ProductPayload, edited: Field)
    requires edited == Name ==> q == p.(name := q.name)
    requires edited == Price ==> q == p.(price := q.price)
    requires edited == Images ==> q == p.(images := q.images)
    requires edited == Quantity ==> q == p.(quantity := q.quantity)
    requires edited == Featured ==> q == p.(featured := q.featured)
    requires edited == Published ==> q == p.(published := q.published)
    requires edited in {Name, Price, Images, Quantity, Featured, Published}
    ensures forall f :: f != edited ==> FieldError(q, f) == FieldError(p, f)
  {
  }

  // ---------------------------------------------------------------------------
  // The submit lifecycle, end to end
  // ---------------------------------------------------------------------------

  /** Mount the form, submit the untouched draft (refused, with the name and
      images errors), fill in name "A" and images "x", submit again (the draft
      is sent and the form is back at its initial state). */
  method FirstSubmitRefusedSecondSent()
    returns (first: Option<ProductPayload>, firstErrors: ErrorMap,
             second: Option<ProductPayload>, finalDraft: ProductPayload, finalErrors: ErrorMap)
    ensures first == None
    ensures firstErrors == map[Name := NameRequired, Images := ImagesRequired]
    ensures second == Some(MinimalDraft)
    ensures finalDraft == InitialState && finalErrors == map[]
  {
    var c := new ProductForm();
    InitialStateErrors();
    assert Name in Errors(c.form);
    first := c.Submit();
    firstErrors := c.errors;
    c.SetName("A");
    c.SetImages("x");
    assert c.form == MinimalDraft;
    MinimalDraftIsValid();
    second := c.Submit();
    finalDraft, finalErrors := c.form, c.errors;
  }
}
