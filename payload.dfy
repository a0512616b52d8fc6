/**
  The Diun webhook payload (the pydantic model DiunPayload). A raw request
  is a map from key to value; validation keeps the five named fields,
  requires status, image and message, and keeps every other key as an
  extra attribute (extra = "allow").
*/
module Payload {
  import opened Wrappers

  /** A value of the raw request: a string or an explicit null. */
  datatype RawValue = Text(text: string) | Null

  type RawObject = map<string, RawValue>

  const Required: seq<string> := ["status", "image", "message"]
  const FieldNames: set<string> := {"status", "image", "platform", "tag", "message"}

  datatype DiunPayload = DiunPayload(
    status: string,
    image: string,
    platform: Option<string>,
    tag: Option<string>,
    message: string,
    extra: RawObject)

  /** The fields that failed validation, in declaration order. */
  datatype ValidationError = ValidationError(invalid: seq<string>)

  /** The string a key carries, if it is present and not null. */
  function FieldText(raw: RawObject, name: string): (r: Option<string>)
    ensures r.Some? <==> name in raw && raw[name].Text?
    ensures r.Some? ==> r.value == raw[name].text
  {
    if name in raw && raw[name].Text? then Some(raw[name].text) else None
  }

  /** The required fields that are absent or null, in declaration order. */
  function Invalid(raw: RawObject): (r: seq<string>)
    ensures forall f :: f in r <==> f in Required && FieldText(raw, f).None?
  {
    (if FieldText(raw, "status").None? then ["status"] else [])
    + (if FieldText(raw, "image").None? then ["image"] else [])
    + (if FieldText(raw, "message").None? then ["message"] else [])
  }

  /** The keys that are not fields of the model, with their values. */
  function Extras(raw: RawObject): (r: RawObject)
    ensures r.Keys == raw.Keys - FieldNames
    ensures forall k :: k in r ==> r[k] == raw[k]
  {
    map k | k in raw && k !in FieldNames :: raw[k]
  }

  /** DiunPayload(**raw): succeeds exactly when the three required fields are
      strings; an absent or null optional field becomes None. */
  function Parse(raw: RawObject): (r: Result<DiunPayload, ValidationError>)
    ensures r.Success? <==> forall f :: f in Required ==> f in raw && raw[f].Text?
    ensures r.Success? ==>
      && r.value.status == raw["status"].text
      && r.value.image == raw["image"].text
      && r.value.message == raw["message"].text
      && r.value.platform == FieldText(raw, "platform")
      && r.value.tag == FieldText(raw, "tag")
      && r.value.extra.Keys == raw.Keys - FieldNames
    ensures r.Failure? ==> r.error.invalid != []
    ensures r.Failure? ==>
      forall f :: f in r.error.invalid <==> f in Required && (f !in raw || raw[f].Null?)
  {
    var invalid := Invalid(raw);
    if invalid != [] then
      Failure(ValidationError(invalid))
    else
      assert "status" in Required && "image" in Required && "message" in Required;
      Success(DiunPayload(
        raw["status"].text, raw["image"].text,
        FieldText(raw, "platform"), FieldText(raw, "tag"),
        raw["message"].text, Extras(raw)))
  }

  /** The five fields that persistence reads from a payload. */
  function Fields(p: DiunPayload): (string, string, Option<string>, Option<string>, string) {
    (p.status, p.image, p.platform, p.tag, p.message)
  }

  /** An unknown key never makes validation fail or succeed, and never
      changes the five named fields; it only shows up among the extras. */
  lemma ExtraKeyIgnored(raw: RawObject, k: string, v: RawValue)
    requires k !in FieldNames
    ensures Parse(raw[k := v]).Success? <==> Parse(raw).Success?
    ensures Parse(raw).Success? ==>
      && Fields(Parse(raw[k := v]).value) == Fields(Parse(raw).value)
      && Parse(raw[k := v]).value.extra == Parse(raw).value.extra[k := v]
  {
    var raw' := raw[k := v];
    forall f | f in FieldNames ensures FieldText(raw', f) == FieldText(raw, f) {
    }
    if Parse(raw).Success? {
      assert Extras(raw') == Extras(raw)[k := v];
    }
  }

  /** A payload missing its image is rejected, naming the image. */
  lemma MissingImageRejected(raw: RawObject)
    requires "image" !in raw
    ensures Parse(raw).Failure? && "image" in Parse(raw).error.invalid
  {
  }
}
