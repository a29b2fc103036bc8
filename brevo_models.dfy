/** The contact record sent to the Brevo API (brevo/models.py). */
module BrevoModels {
  import opened Wrappers
  import opened JsonValue

  /** `BrevoContact`: an email, the lists to add it to, its attribute values
      and whether an existing contact may be updated. */
  datatype BrevoContact = BrevoContact(
    email: string,
    listIds: seq<int>,
    attributes: map<string, Json>,
    updateEnabled: bool)

  /** `BrevoContact(email=...)` with every other field at its dataclass default. */
  function NewContact(email: string): (c: BrevoContact)
    ensures c.email == email
    ensures c.listIds == [] && c.attributes == map[] && c.updateEnabled
  {
    BrevoContact(email, [], map[], true)
  }

  /** The four keys a payload may carry. */
  const PayloadKeys: set<string> := {"email", "updateEnabled", "listIds", "attributes"}

  function IdsToJson(ids: seq<int>): (j: seq<Json>)
    ensures |j| == |ids|
  {
    if ids == [] then [] else [JInt(ids[0])] + IdsToJson(ids[1..])
  }

  /** `to_payload()`: always the email and the update flag; `listIds` and
      `attributes` only when they are non-empty, and then unchanged. */
  function ToPayload(c: BrevoContact): (p: map<string, Json>)
    ensures p.Keys <= PayloadKeys
    ensures "email" in p && p["email"] == JString(c.email)
    ensures "updateEnabled" in p && p["updateEnabled"] == JBool(c.updateEnabled)
    ensures ("listIds" in p) <==> c.listIds != []
    ensures "listIds" in p ==> p["listIds"] == JArray(IdsToJson(c.listIds))
    ensures ("attributes" in p) <==> c.attributes != map[]
    ensures "attributes" in p ==> p["attributes"] == JObject(c.attributes)
  {
    var base := map["email" := JString(c.email), "updateEnabled" := JBool(c.updateEnabled)];
    var withLists := if c.listIds != [] then base["listIds" := JArray(IdsToJson(c.listIds))] else base;
    if c.attributes != map[] then withLists["attributes" := JObject(c.attributes)] else withLists
  }

  function JsonToIds(j: seq<Json>): Option<seq<int>> {
    if j == [] then Some([])
    else match (j[0], JsonToIds(j[1..]))
      case (JInt(n), Some(rest)) => Some([n] + rest)
      case _ => None
  }

  /** Reads a payload back into a contact; absent optional keys mean the
      dataclass defaults. */
  function FromPayload(p: map<string, Json>): Option<BrevoContact> {
    if "email" !in p || !p["email"].JString? || "updateEnabled" !in p || !p["updateEnabled"].JBool? then None
    else
      var ids := if "listIds" in p then (if p["listIds"].JArray? then JsonToIds(p["listIds"].items) else None) else Some([]);
      var attrs := if "attributes" in p then (if p["attributes"].JObject? then Some(p["attributes"].fields) else None) else Some(map[]);
      if ids.None? || attrs.None? then None
      else Some(BrevoContact(p["email"].s, ids.value, attrs.value, p["updateEnabled"].b))
  }

  lemma {:induction false} IdsRoundTrip(ids: seq<int>)
    ensures JsonToIds(IdsToJson(ids)) == Some(ids)
  {
    if ids != [] {
      IdsRoundTrip(ids[1..]);
      assert IdsToJson(ids)[1..] == IdsToJson(ids[1..]);
      assert [ids[0]] + ids[1..] == ids;
    }
  }

  /** `to_payload` loses nothing: the contact can be read back from it, so two
      different contacts never produce the same request body. */
  lemma PayloadRoundTrip(c: BrevoContact)
    ensures FromPayload(ToPayload(c)) == Some(c)
  {
    IdsRoundTrip(c.listIds);
  }

  /** A contact built from an email alone sends exactly the email and
      `updateEnabled = true`. */
  lemma BareContactPayload(email: string)
    ensures ToPayload(NewContact(email)) == map["email" := JString(email), "updateEnabled" := JBool(true)]
  {
  }
}
