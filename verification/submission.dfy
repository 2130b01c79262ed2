/** The record the enquiry form submits: a timestamp and seven form fields,
    each defaulting to the empty string. The timestamp is passed in, since
    the script formats the current time in the India time zone, and the
    POST that carries the record is not modelled. */
module Submission {
  import opened Wrappers

  /** Form contents as `Object.fromEntries(new FormData(form))` gives them:
      field name to string value; an absent key reads as `undefined`. */
  type FormData = map<string, string>

  datatype Payload = Payload(
    timestamp: string,
    name: string,
    email: string,
    phone: string,
    occasion: string,
    quantity: string,
    budget: string,
    message: string)

  /** The form fields copied into the record, in the order they appear. */
  const FieldNames: seq<string> := ["name", "email", "phone", "occasion", "quantity", "budget", "message"]

  /** Every key of the record, in the order the record is written out. */
  const PayloadKeys: seq<string> := ["timestamp"] + FieldNames

  /** `form[key] || ""`: a missing key and a falsy empty string both give
      "", so in effect an absent field reads as "" and a present one is
      copied unchanged. */
  function FieldOrEmpty(form: FormData, key: string): (v: string)
    ensures key !in form ==> v == ""
    ensures key in form ==> v == form[key]
  {
    if key in form && form[key] != "" then form[key] else ""
  }

  /** The record read as an object: the value stored under `key`, if any. */
  function Get(p: Payload, key: string): Option<string> {
    match key
    case "timestamp" => Some(p.timestamp)
    case "name" => Some(p.name)
    case "email" => Some(p.email)
    case "phone" => Some(p.phone)
    case "occasion" => Some(p.occasion)
    case "quantity" => Some(p.quantity)
    case "budget" => Some(p.budget)
    case "message" => Some(p.message)
    case _ => None
  }

  /** `submissionData` as `sendFormData` builds it. */
  function BuildPayload(form: FormData, timestamp: string): (p: Payload)
    ensures Get(p, "timestamp") == Some(timestamp)
    ensures forall i :: 0 <= i < |FieldNames| ==>
      Get(p, FieldNames[i]) == Some(if FieldNames[i] in form then form[FieldNames[i]] else "")
  {
    Payload(timestamp,
      FieldOrEmpty(form, "name"),
      FieldOrEmpty(form, "email"),
      FieldOrEmpty(form, "phone"),
      FieldOrEmpty(form, "occasion"),
      FieldOrEmpty(form, "quantity"),
      FieldOrEmpty(form, "budget"),
      FieldOrEmpty(form, "message"))
  }

  /** A record answers to exactly the eight keys. */
  lemma GetKeys(p: Payload, key: string)
    ensures Get(p, key).Some? <==> key in PayloadKeys
  {
  }

  /** The record as the ordered key/value list `JSON.stringify` writes. */
  function Entries(p: Payload): seq<(string, string)> {
    [("timestamp", p.timestamp), ("name", p.name), ("email", p.email), ("phone", p.phone),
     ("occasion", p.occasion), ("quantity", p.quantity), ("budget", p.budget), ("message", p.message)]
  }

  /** Reads a key/value list back into a record, if its keys are exactly
      the record's keys in order. */
  function FromEntries(e: seq<(string, string)>): Option<Payload> {
    if |e| == |PayloadKeys| && forall i :: 0 <= i < |e| ==> e[i].0 == PayloadKeys[i]
    then Some(Payload(e[0].1, e[1].1, e[2].1, e[3].1, e[4].1, e[5].1, e[6].1, e[7].1))
    else None
  }

  /** The written-out record carries all eight keys, in order, each with
      the value the record holds, and reads back to the same record. */
  lemma EntriesRoundTrip(p: Payload)
    ensures |Entries(p)| == |PayloadKeys|
    ensures forall i :: 0 <= i < |PayloadKeys| ==>
      Entries(p)[i].0 == PayloadKeys[i] && Get(p, PayloadKeys[i]) == Some(Entries(p)[i].1)
    ensures FromEntries(Entries(p)) == Some(p)
  {
  }

  /** The record's fields as form data again. */
  function AsForm(p: Payload): FormData {
    map["name" := p.name, "email" := p.email, "phone" := p.phone, "occasion" := p.occasion,
        "quantity" := p.quantity, "budget" := p.budget, "message" := p.message]
  }

  /** Submitting a record's own fields again gives the same record. */
  lemma ResubmitIsIdentity(form: FormData, timestamp: string)
    ensures BuildPayload(AsForm(BuildPayload(form, timestamp)), timestamp) == BuildPayload(form, timestamp)
  {
  }

  /** Only the seven named fields matter: forms that agree on them (whatever
      else they hold) give the same record. */
  lemma OnlyNamedFieldsMatter(f: FormData, g: FormData, timestamp: string)
    requires forall key :: key in FieldNames ==>
      (key in f <==> key in g) && (key in f ==> f[key] == g[key])
    ensures BuildPayload(f, timestamp) == BuildPayload(g, timestamp)
  {
    assert "name" in FieldNames && "email" in FieldNames && "phone" in FieldNames;
    assert "occasion" in FieldNames && "quantity" in FieldNames;
    assert "budget" in FieldNames && "message" in FieldNames;
  }

  /** An empty form still yields all eight keys, every field empty. */
  lemma EmptyFormPayload(timestamp: string)
    ensures BuildPayload(map[], timestamp) == Payload(timestamp, "", "", "", "", "", "", "")
  {
  }
}
