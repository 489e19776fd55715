/** The product form (app/Components/ProductForm.jsx): the field rules that
    build the error map, the per-field edit that clears that field's error,
    and the submit handler that hands the form on only when it is valid. */
module Forms {
  import opened Products

  /** A value in the error object: a message, or the nested `rating` object
      whose keys are `rate` and `count`. */
  datatype ErrVal = Msg(text: string) | Sub(fields: map<string, string>)

  type ErrorMap = map<string, ErrVal>

  const NameRequired := "Name is required"
  const DescriptionRequired := "Description is required"
  const ImageRequired := "Image URL is required"
  const PriceRequired := "Valid price is required"
  const RateRequired := "Rating (0-5) is required"
  const CountPositive := "Count must be positive"

  /** The keys validation can ever write at the top level. */
  const TopKeys: set<string> := {"name", "description", "image", "price", "rating"}

  /** JavaScript truthiness of an error entry: an empty message is falsy,
      any object is truthy. */
  predicate Truthy(v: ErrVal)
  {
    v.Sub? || v.text != ""
  }

  // The rules, each phrased as the source phrases it (a falsy check first).

  predicate BadPrice(p: NumField)
  {
    Falsy(p) || p.value <= 0.0
  }

  predicate BadRate(r: NumField)
  {
    Falsy(r) || r.value < 0.0 || r.value > 5.0
  }

  predicate BadCount(c: NumField)
  {
    Falsy(c) || c.value < 0.0
  }

  /** What the rules accept, stated positively: non-empty texts, a positive
      price, a rate in (0, 5] and a positive count. Because the falsy checks
      come first, a rate or count of 0 is rejected. */
  predicate Acceptable(f: Form)
  {
    && f.title != "" && f.description != "" && f.image != ""
    && f.price.Number? && f.price.value > 0.0
    && f.rating.rate.Number? && 0.0 < f.rating.rate.value <= 5.0
    && f.rating.count.Number? && f.rating.count.value > 0.0
  }

  /** One `if (bad) newErrors[key] = msg` step. */
  function Rule(e: ErrorMap, bad: bool, key: string, msg: string): (r: ErrorMap)
    ensures r.Keys == if bad then e.Keys + {key} else e.Keys
    ensures forall k :: k in e && k != key ==> r[k] == e[k]
    ensures bad ==> r[key] == Msg(msg)
  {
    if bad then e[key := Msg(msg)] else e
  }

  /** `newErrors.rating || {}`: the rating sub-object built so far. */
  function RatingSoFar(e: ErrorMap): map<string, string>
  {
    if "rating" in e && e["rating"].Sub? then e["rating"].fields else map[]
  }

  /** One `if (bad) newErrors.rating = { ...(newErrors.rating || {}), [sub]: msg }`
      step: it adds to the rating object instead of replacing it. */
  function RatingRule(e: ErrorMap, bad: bool, sub: string, msg: string): (r: ErrorMap)
    ensures r.Keys == if bad then e.Keys + {"rating"} else e.Keys
    ensures forall k :: k in e && k != "rating" ==> r[k] == e[k]
    ensures bad ==> r["rating"] == Sub(RatingSoFar(e)[sub := msg])
  {
    if bad then e["rating" := Sub(RatingSoFar(e)[sub := msg])] else e
  }

  /** The four top-level rules, before the rating rules. */
  function FieldErrors(f: Form): (r: ErrorMap)
    ensures "name" in r <==> f.title == ""
    ensures "description" in r <==> f.description == ""
    ensures "image" in r <==> f.image == ""
    ensures "price" in r <==> BadPrice(f.price)
    ensures r.Keys <= {"name", "description", "image", "price"}
    ensures "name" in r ==> r["name"] == Msg(NameRequired)
    ensures "description" in r ==> r["description"] == Msg(DescriptionRequired)
    ensures "image" in r ==> r["image"] == Msg(ImageRequired)
    ensures "price" in r ==> r["price"] == Msg(PriceRequired)
  {
    var e1 := Rule(map[], f.title == "", "name", NameRequired);
    var e2 := Rule(e1, f.description == "", "description", DescriptionRequired);
    var e3 := Rule(e2, f.image == "", "image", ImageRequired);
    Rule(e3, BadPrice(f.price), "price", PriceRequired)
  }

  /** The `rating` object the two rating rules build together. */
  function RatingFields(r: Rating): map<string, string>
  {
    var m := if BadRate(r.rate) then map["rate" := RateRequired] else map[];
    if BadCount(r.count) then m["count" := CountPositive] else m
  }

  /** The two rating rules, applied to a map that has no `rating` entry yet. */
  function RatingRules(e: ErrorMap, r: Rating): (out: ErrorMap)
    requires "rating" !in e
    ensures out.Keys == if BadRate(r.rate) || BadCount(r.count) then e.Keys + {"rating"} else e.Keys
    ensures forall k :: k in e ==> out[k] == e[k]
    ensures "rating" in out ==> out["rating"] == Sub(RatingFields(r))
  {
    assert RatingSoFar(e) == map[];
    var e5 := RatingRule(e, BadRate(r.rate), "rate", RateRequired);
    assert RatingSoFar(e5) == if BadRate(r.rate) then map["rate" := RateRequired] else map[];
    RatingRule(e5, BadCount(r.count), "count", CountPositive)
  }

  /** validateForm without its setErrors: every rule is tested on its own; the
      title error goes under key `name`; the rate and count errors are merged
      into one `rating` object. */
  function Validate(f: Form): (r: ErrorMap)
    ensures r.Keys <= TopKeys && "title" !in r
    ensures "name" in r <==> f.title == ""
    ensures "description" in r <==> f.description == ""
    ensures "image" in r <==> f.image == ""
    ensures "price" in r <==> !(f.price.Number? && f.price.value > 0.0)
    ensures "rating" in r <==>
      !(f.rating.rate.Number? && 0.0 < f.rating.rate.value <= 5.0) ||
      !(f.rating.count.Number? && f.rating.count.value > 0.0)
    ensures "name" in r ==> r["name"] == Msg(NameRequired)
    ensures "description" in r ==> r["description"] == Msg(DescriptionRequired)
    ensures "image" in r ==> r["image"] == Msg(ImageRequired)
    ensures "price" in r ==> r["price"] == Msg(PriceRequired)
    ensures "rating" in r ==> r["rating"] == Sub(RatingFields(f.rating))
  {
    RatingRules(FieldErrors(f), f.rating)
  }

  /** validateForm's verdict: the error map is empty exactly when the form
      is acceptable. */
  lemma ValidIffNoErrors(f: Form)
    ensures |Validate(f)| == 0 <==> Acceptable(f)
  {
    var e := Validate(f);
    if !Acceptable(f) {
      assert exists k :: k in e;
    } else {
      assert e.Keys == {};
    }
  }

  /** The merged `rating` object holds `rate` iff the rate is not in (0, 5]
      and `count` iff the count is not positive, each with its own message:
      the second rule adds to the object the first one built. */
  lemma RatingFieldsMerged(r: Rating)
    ensures RatingFields(r).Keys <= {"rate", "count"}
    ensures "rate" in RatingFields(r) <==> !(r.rate.Number? && 0.0 < r.rate.value <= 5.0)
    ensures "count" in RatingFields(r) <==> !(r.count.Number? && r.count.value > 0.0)
    ensures "rate" in RatingFields(r) ==> RatingFields(r)["rate"] == RateRequired
    ensures "count" in RatingFields(r) ==> RatingFields(r)["count"] == CountPositive
  {
  }

  /** The `name` attribute of each input of the form. */
  datatype FieldName = Title | Description | Image | Price | Rate | Count

  function Key(n: FieldName): string
  {
    match n
    case Title => "title"
    case Description => "description"
    case Image => "image"
    case Price => "price"
    case Rate => "rate"
    case Count => "count"
  }

  /** A field's value as the form holds it. */
  datatype FieldValue = Text(s: string) | Amount(n: NumField)

  function Get(f: Form, n: FieldName): FieldValue
  {
    match n
    case Title => Text(f.title)
    case Description => Text(f.description)
    case Image => Text(f.image)
    case Price => Amount(f.price)
    case Rate => Amount(f.rating.rate)
    case Count => Amount(f.rating.count)
  }

  /** `parse(value) || ''`: a parse result of NaN (None) or 0 becomes ''. */
  function OrBlank(parsed: Option<real>): (r: NumField)
    ensures r.Blank? <==> parsed.None? || parsed.value == 0.0
    ensures r.Number? ==> r.value == parsed.value
  {
    if parsed.None? || parsed.value == 0.0 then Blank else Number(parsed.value)
  }

  /** The value handleChange stores for input `n` whose text is `value`;
      `parsed` is the parse of `value` (parseInt for count, parseFloat for
      price and rate), which the model takes as given. */
  function NewValue(n: FieldName, value: string, parsed: Option<real>): FieldValue
  {
    if n in {Price, Rate, Count} then Amount(OrBlank(parsed)) else Text(value)
  }

  /** The form after handleChange's setForm: the named field takes its new
      value, or the named subfield of `rating` does; nothing else changes. */
  function Edit(f: Form, n: FieldName, value: string, parsed: Option<real>): (r: Form)
    ensures Get(r, n) == NewValue(n, value, parsed)
    ensures forall m :: m != n ==> Get(r, m) == Get(f, m)
  {
    match n
    case Title => f.(title := value)
    case Description => f.(description := value)
    case Image => f.(image := value)
    case Price => f.(price := OrBlank(parsed))
    case Rate => f.(rating := f.rating.(rate := OrBlank(parsed)))
    case Count => f.(rating := f.rating.(count := OrBlank(parsed)))
  }

  /** The key of the error entry handleChange looks up for `n`: the field's
      own name at the top level, or `rating` for its two subfields. */
  function LookupKey(n: FieldName): string
  {
    if n in {Rate, Count} then "rating" else Key(n)
  }

  /** The errors after handleChange: a truthy entry for the edited field is
      set to ''; nothing else changes. */
  function Cleared(e: ErrorMap, n: FieldName): (r: ErrorMap)
    ensures r.Keys == e.Keys
    ensures forall k :: k in e && k != LookupKey(n) ==> r[k] == e[k]
    ensures n !in {Rate, Count} && Key(n) in e ==>
      r[Key(n)] == if Truthy(e[Key(n)]) then Msg("") else e[Key(n)]
    ensures n in {Rate, Count} && "rating" in e ==>
      if e["rating"].Sub? && Key(n) in e["rating"].fields && e["rating"].fields[Key(n)] != ""
      then r["rating"] == Sub(e["rating"].fields[Key(n) := ""])
      else r["rating"] == e["rating"]
  {
    if n in {Rate, Count} then
      if "rating" in e && e["rating"].Sub? && Key(n) in e["rating"].fields
         && e["rating"].fields[Key(n)] != ""
      then e["rating" := Sub(e["rating"].fields[Key(n) := ""])]
      else e
    else if Key(n) in e && Truthy(e[Key(n)]) then e[Key(n) := Msg("")]
    else e
  }

  /** Editing the title never clears the "name is required" error: the
      handler looks the error up under `title`, where validation never puts it. */
  lemma TitleEditKeepsNameError(f: Form)
    requires f.title == ""
    ensures Cleared(Validate(f), Title)["name"] == Msg(NameRequired)
  {
  }

  /** The key under which validation reports a violation of field `n`'s
      rule: `name` for the title, `rating` for its two subfields. */
  function RuleKey(n: FieldName): string
  {
    if n == Title then "name" else LookupKey(n)
  }

  /** The `rating` entry of the error map depends on the rating alone. */
  lemma RatingEntryOfRating(f: Form, g: Form)
    requires f.rating == g.rating
    ensures "rating" in Validate(f) <==> "rating" in Validate(g)
    ensures "rating" in Validate(f) ==> Validate(f)["rating"] == Validate(g)["rating"]
  {
    assert Validate(f) == RatingRules(FieldErrors(f), f.rating);
    assert Validate(g) == RatingRules(FieldErrors(g), g.rating);
  }

  /** Re-validating after an edit changes at most the edited field's rule
      entry: every other entry of the error map stays as it was. */
  lemma RevalidateAfterEdit(f: Form, n: FieldName, value: string, parsed: Option<real>)
    ensures var e, e' := Validate(f), Validate(Edit(f, n, value, parsed));
      forall k :: k != RuleKey(n) ==> (k in e' <==> k in e) && (k in e ==> e'[k] == e[k])
  {
    var e, g := Validate(f), Edit(f, n, value, parsed);
    var e' := Validate(g);
    forall k | k != RuleKey(n) ensures (k in e' <==> k in e) && (k in e ==> e'[k] == e[k]) {
      if k == "name" {
        assert n != Title;
        assert g.title == f.title;
      } else if k == "description" {
        assert n != Description;
        assert g.description == f.description;
      } else if k == "image" {
        assert n != Image;
        assert g.image == f.image;
      } else if k == "price" {
        assert n != Price;
        assert g.price == f.price;
      } else if k == "rating" {
        assert n !in {Rate, Count};
        assert g.rating == f.rating;
        RatingEntryOfRating(f, g);
      } else {
        assert k !in TopKeys;
      }
    }
  }

  /** An empty form apart from a negative price, a rate of 6 and a count of
      -1 reports every rule, both rating rules inside one `rating` object. */
  lemma AllRulesReported()
    ensures var e := Validate(Form("", "", "", Number(-5.0), Rating(Number(6.0), Number(-1.0))));
      && e.Keys == TopKeys
      && e["rating"] == Sub(map["rate" := RateRequired, "count" := CountPositive])
  {
    var r := Rating(Number(6.0), Number(-1.0));
    assert RatingFields(r) == map["rate" := RateRequired]["count" := CountPositive];
    assert map["rate" := RateRequired]["count" := CountPositive]
        == map["rate" := RateRequired, "count" := CountPositive];
  }

  /** A rate of 0 and a count of 0 are rejected, although they are within the
      stated ranges, because `!0` is true. */
  lemma ZeroRateAndCountRejected(f: Form)
    requires f.rating == Rating(Number(0.0), Number(0.0))
    ensures var e := Validate(f);
      "rating" in e && e["rating"].fields.Keys == {"rate", "count"}
  {
  }

  /** The component: form state, error state, image preview and the loading
      flag, with the handlers that update them. */
  class ProductForm {
    var form: Form
    var errors: ErrorMap
    var preview: string
    var loading: bool

    constructor ()
      ensures form == EmptyForm && errors == map[] && preview == "" && !loading
    {
      form := EmptyForm;
      errors := map[];
      preview := "";
      loading := false;
    }

    /** validateForm: stores the error map and reports whether it is empty. */
    method ValidateForm() returns (ok: bool)
      modifies this`errors
      ensures errors == Validate(form)
      ensures ok <==> Acceptable(form)
      ensures ok <==> |errors| == 0
    {
      errors := Validate(form);
      ok := |errors| == 0;
    }

    /** handleChange for input `n` with text `value` (parsed as `parsed`). */
    method HandleChange(n: FieldName, value: string, parsed: Option<real>)
      modifies this`form, this`errors, this`preview
      ensures form == Edit(old(form), n, value, parsed)
      ensures errors == Cleared(old(errors), n)
      ensures preview == if n == Image then value else old(preview)
      ensures loading == old(loading)
    {
      if n in {Rate, Count} {
        form := form.(rating := if n == Rate then form.rating.(rate := OrBlank(parsed))
                                else form.rating.(count := OrBlank(parsed)));
        if "rating" in errors && errors["rating"].Sub? && Key(n) in errors["rating"].fields
           && errors["rating"].fields[Key(n)] != "" {
          errors := errors["rating" := Sub(errors["rating"].fields[Key(n) := ""])];
        }
        return;
      }
      form := Edit(form, n, value, parsed);
      if n == Image {
        preview := value;
      }
      if Key(n) in errors && Truthy(errors[Key(n)]) {
        errors := errors[Key(n) := Msg("")];
      }
    }

    /** handleSubmit: sets loading, validates, and hands the form to onSubmit
      (the returned value) only when it is valid; only then is loading reset. */
    method HandleSubmit() returns (submitted: Option<Form>)
      modifies this`errors, this`loading
      ensures errors == Validate(form)
      ensures submitted.Some? <==> Acceptable(form)
      ensures submitted.Some? ==> submitted.value == form
      ensures loading <==> !Acceptable(form)
    {
      loading := true;
      var ok := ValidateForm();
      if ok {
        submitted := Some(form);
        loading := false;
      } else {
        submitted := None;
      }
    }
  }
}
