/**
  The /diun webhook (diun): a GET request carries the notification in its
  query parameters, any other request in a JSON body; both are validated as
  a DiunPayload and, on success, stored as one new event.
*/
module Webhook {
  import opened Wrappers
  import opened Payload
  import opened EventLog
  import Homer
  import Style

  /** A request body: a JSON object, or anything else (a list, a number...). */
  datatype Body = JsonObject(fields: RawObject) | NotAnObject

  datatype Request = Get(query: map<string, string>) | Post(body: Body)

  /** What made the handler raise. */
  datatype Fault = ValidationFailed(error: ValidationError) | BodyNotAnObject | StoreFailed(cause: StoreError)

  /** The handler's answer: {"status": "success"}, or the exception it re-raised. */
  datatype Reply = StatusSuccess | Raised(fault: Fault)

  /** The keyword arguments given to DiunPayload: query parameters are strings. */
  function RawOf(req: Request): (r: Option<RawObject>)
    ensures req.Get? ==> r.Some? && r.value.Keys == req.query.Keys
    ensures req.Get? ==> forall k :: k in req.query ==> r.value[k] == Text(req.query[k])
    ensures req.Post? ==> (r.Some? <==> req.body.JsonObject?)
    ensures req.Post? && r.Some? ==> r.value == req.body.fields
  {
    match req
    case Get(query) => Some(map k | k in query :: Text(query[k]))
    case Post(JsonObject(fields)) => Some(fields)
    case Post(NotAnObject) => None
  }

  /** The payload the handler builds, or the fault that stops it before the store. */
  function PayloadOf(req: Request): (r: Result<DiunPayload, Fault>)
    ensures req.Post? && req.body.NotAnObject? ==> r == Failure(BodyNotAnObject)
    ensures req.Post? && req.body.JsonObject? ==>
      (r.Success? <==> forall f :: f in Required ==> f in req.body.fields && req.body.fields[f].Text?)
    ensures req.Post? && r.Success? ==>
      && r.value.status == req.body.fields["status"].text
      && r.value.image == req.body.fields["image"].text
      && r.value.message == req.body.fields["message"].text
    ensures req.Get? ==> (r.Success? <==> forall f :: f in Required ==> f in req.query)
    ensures req.Get? && r.Success? ==>
      && r.value.status == req.query["status"]
      && r.value.image == req.query["image"]
      && r.value.message == req.query["message"]
    ensures r.Failure? && r.error.ValidationFailed? ==>
      forall f :: f in r.error.error.invalid ==> f in Required
  {
    match RawOf(req)
    case None => Failure(BodyNotAnObject)
    case Some(raw) =>
      match Parse(raw)
      case Success(p) => Success(p)
      case Failure(e) => Failure(ValidationFailed(e))
  }

  /** A query string and the JSON object holding the same strings build the same payload. */
  lemma GetAndPostAgree(query: map<string, string>)
    ensures PayloadOf(Get(query)) == PayloadOf(Post(JsonObject(map k | k in query :: Text(query[k]))))
  {
  }

  /** A GET request is accepted exactly when status, image and message are among its parameters. */
  lemma GetAcceptedIff(query: map<string, string>)
    ensures PayloadOf(Get(query)).Success? <==> forall f :: f in Required ==> f in query
    ensures PayloadOf(Get(query)).Success? ==>
      && PayloadOf(Get(query)).value.platform == (if "platform" in query then Some(query["platform"]) else None)
      && PayloadOf(Get(query)).value.tag == (if "tag" in query then Some(query["tag"]) else None)
  {
    var raw := map k | k in query :: Text(query[k]);
    assert RawOf(Get(query)) == Some(raw);
  }

  /** diun: validate, then store; a store happens only for a valid payload,
      and the reply is {"status": "success"} exactly when a row was added. */
  method Diun(db: Database, req: Request, elapsed: nat) returns (reply: Reply)
    requires db.Valid()
    modifies db
    ensures db.Valid()
    ensures PayloadOf(req).Failure? ==> reply == Raised(PayloadOf(req).error) && unchanged(db)
    ensures PayloadOf(req).Success? && !old(db.tableExists) ==>
      && reply == Raised(StoreFailed(NoSuchTable))
      && db.rows == old(db.rows) && db.nextId == old(db.nextId) && !db.tableExists
      && db.clock == old(db.clock) + elapsed
    ensures PayloadOf(req).Success? && old(db.tableExists) ==>
      var p := PayloadOf(req).value;
      && reply == StatusSuccess
      && db.rows == old(db.rows) + [Row(old(db.nextId), p.image, p.status, p.platform, p.tag, p.message, db.clock)]
      && db.nextId == old(db.nextId) + 1
      && db.clock == old(db.clock) + elapsed && db.tableExists
  {
    var payload := PayloadOf(req);
    if payload.Failure? {
      return Raised(payload.error);
    }
    var stored := db.StoreDiunPayload(payload.value, elapsed);
    if !stored {
      return Raised(StoreFailed(NoSuchTable));
    }
    reply := StatusSuccess;
  }

  const UpdateBody: RawObject :=
    map["status" := Text("update"), "image" := Text("nginx:latest"), "message" := Text("new tag found")]

  /** The update notification parses with neither platform nor tag. */
  lemma UpdateBodyParses()
    ensures PayloadOf(Post(JsonObject(UpdateBody))) ==
      Success(DiunPayload("update", "nginx:latest", None, None, "new tag found", map[]))
  {
    assert Parse(UpdateBody).Success?;
    assert Extras(UpdateBody) == map[];
  }

  const ErrorQuery: map<string, string> :=
    map["status" := "error", "image" := "redis", "message" := "pull failed"]

  /** The error notification's query string parses with neither platform nor tag. */
  lemma ErrorQueryParses()
    ensures PayloadOf(Get(ErrorQuery)) ==
      Success(DiunPayload("error", "redis", None, None, "pull failed", map[]))
  {
    var raw := RawOf(Get(ErrorQuery)).value;
    assert raw == map["status" := Text("error"), "image" := Text("redis"), "message" := Text("pull failed")];
    assert Parse(raw).Success?;
    assert Extras(raw) == map[];
  }

  /** The card of the stored update notification. */
  lemma UpdateCard()
    ensures var card := Homer.CardOf(Row(1, "nginx:latest", "update", None, None, "new tag found", 7));
      && card.style == Style.Success
      && card.title == "nginx:latest"
      && card.content == "new tag found" + " (" + "7" + ")"
  {
    Style.StyleExamples();
    assert Homer.FormatTimestamp(7) == "7";
  }

  /** A POSTed update notification is stored and comes back as one success card. */
  method PostThenList() {
    var db := new Database(0);
    db.InitDb();
    UpdateBodyParses();
    var reply := Diun(db, Post(JsonObject(UpdateBody)), 7);
    assert reply == StatusSuccess;
    var row := Row(1, "nginx:latest", "update", None, None, "new tag found", 7);
    assert db.rows == [row];
    assert db.Select() == [row];
    var cards := Homer.GetHomerMessages(db);
    assert cards.Success? && |cards.value| == 1;
    assert cards.value == [Homer.CardOf(row)];
    UpdateCard();
  }

  /** A GET notification without platform or tag is stored with both null. */
  method GetWithoutOptionals() {
    var db := new Database(0);
    db.InitDb();
    ErrorQueryParses();
    var reply := Diun(db, Get(ErrorQuery), 1);
    assert reply == StatusSuccess;
    assert db.rows == [Row(1, "redis", "error", None, None, "pull failed", 1)];
  }
}
