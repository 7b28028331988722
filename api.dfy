/**
 * lib/api.ts: the fetch wrappers around the analysis backend. Each wrapper
 * builds one HTTP request from its arguments (`RequestOf`) and turns the
 * response into a resolved value or a thrown error (`Settle`). The network
 * itself is a parameter: a wrapper is given the `Reply` its fetch produced.
 */
module Api {
  import opened Types
  import opened Strings

  /** The configured backend base URL. */
  const ApiBase: string := "http://localhost:8000/api/v1"

  /** Canned data is used only when the base URL is empty. */
  const UseDummy: bool := |ApiBase| == 0

  /** The error `getTimeline` and `exportRedline` throw without canned data. */
  const NotAvailable: string := "API not available"

  datatype Method = Get | Post | Delete

  /** A value in a request body: a string, a boolean, or an attached file. */
  datatype Field = Text(text: string) | Flag(flag: bool) | Attachment(file: FileInfo)

  /** A request body: none, multipart form data, or a JSON object whose
      members are listed in `JSON.stringify` order. */
  datatype Body = NoBody | Multipart(parts: seq<(string, Field)>) | Json(members: seq<(string, Field)>)

  datatype Request = Request(verb: Method, url: string, body: Body)

  /** The form the upload components send. */
  datatype UploadForm = UploadForm(file: FileInfo, docName: string, docType: string)

  /** One call of a fetching wrapper, with its arguments. */
  datatype Operation =
    | UploadDocument(form: UploadForm)
    | GetResult(uid: string)
    | GetClauseDetail(uid: string, clauseId: string)
    | InsertGhostClause(uid: string)
    | NegotiateClause(uid: string, clauseId: string, tone: string, origin: string, risk: string)
    | ChatWithAssistant(uid: string, question: string, chatSession: Option<string>)
    | GetSessions
    | GetSessionHistory(sessionId: string)
    | GetSession(sessionId: string)
    | DeleteSession(sessionId: string)
    | StartVideoGen(prompt: string, uid: string)
    | GetVideoGenStatus(jobId: string)

  /** What a fetch produced: a rejected promise (no response, or a body that
      is not JSON) or a response with its `ok` flag, status text and body. */
  datatype Reply<+T> = Rejected(message: string) | Response(ok: bool, statusText: string, json: T)

  function Endpoint(path: string): (url: string)
    ensures IsPrefix(ApiBase + "/", url)
  {
    ApiBase + "/" + path
  }

  /** The id `getClauseDetail` puts in its path: the first ".txt" removed. */
  function CleanClauseId(clauseId: string): string {
    ReplaceFirst(clauseId, ".txt", "")
  }

  function JsonMember(key: string, value: string): (string, Field) {
    (key, Text(value))
  }

  /** The value a JSON body holds under `key`, if any. */
  function Lookup(members: seq<(string, Field)>, key: string): Option<Field> {
    if members == [] then None
    else if members[0].0 == key then Some(members[0].1)
    else Lookup(members[1..], key)
  }

  /** The request each wrapper issues. A body is sent exactly with POST. */
  function RequestOf(op: Operation): (r: Request)
    ensures IsPrefix(ApiBase + "/", r.url)
    ensures r.body.NoBody? <==> r.verb != Post
  {
    match op
    case UploadDocument(form) =>
      Request(Post, Endpoint("upload"),
        Multipart([("file", Attachment(form.file)), ("doc_name", Text(form.docName)), ("doc_type", Text(form.docType))]))
    case GetResult(uid) =>
      Request(Get, Endpoint("result/" + uid), NoBody)
    case GetClauseDetail(uid, clauseId) =>
      Request(Get, Endpoint("clause/" + uid + "/" + CleanClauseId(clauseId)), NoBody)
    case InsertGhostClause(uid) =>
      Request(Post, Endpoint("insert-ghost"), Json([JsonMember("uid", uid)]))
    case NegotiateClause(uid, clauseId, tone, origin, risk) =>
      Request(Post, Endpoint("negotiate"),
        Json([JsonMember("uid", uid), JsonMember("clauseId", clauseId), JsonMember("tone", tone),
              JsonMember("origin", origin), JsonMember("risk", risk)]))
    case ChatWithAssistant(uid, question, sessionId) =>
      // JSON.stringify drops a member whose value is undefined.
      Request(Post, Endpoint("chat"),
        Json([JsonMember("uid", uid), JsonMember("question", question)]
             + (if sessionId.Some? then [JsonMember("session_id", sessionId.value)] else [])))
    case GetSessions =>
      Request(Get, Endpoint("sessions"), NoBody)
    case GetSessionHistory(sessionId) =>
      Request(Get, Endpoint("sessions/" + sessionId), NoBody)
    case GetSession(sessionId) =>
      Request(Get, Endpoint("sessions/" + sessionId), NoBody)
    case DeleteSession(sessionId) =>
      Request(Delete, Endpoint("sessions/" + sessionId), NoBody)
    case StartVideoGen(prompt, uid) =>
      Request(Post, Endpoint("videogen/start"), Json([JsonMember("prompt", prompt), JsonMember("uid", uid)]))
    case GetVideoGenStatus(jobId) =>
      Request(Get, Endpoint("videogen/status/" + jobId), NoBody)
  }

  /** The message a wrapper throws when the response is not ok. */
  function FailureMessage(op: Operation, statusText: string): string {
    match op
    case UploadDocument(_) => "Upload failed"
    case GetResult(_) => "Result fetch failed"
    case GetClauseDetail(_, _) => "Fetch clause detail failed"
    case InsertGhostClause(_) => "Insert ghost clause failed"
    case NegotiateClause(_, _, _, _, _) => "Negotiate failed"
    case ChatWithAssistant(_, _, _) => "Chat failed"
    case GetSessions => "Sessions fetch failed"
    case GetSessionHistory(_) => "Session history fetch failed"
    case GetSession(_) => "Failed to fetch session"
    case DeleteSession(_) => "Failed to delete session: " + statusText
    case StartVideoGen(_, _) => "Failed to start video generation"
    case GetVideoGenStatus(_) => "Failed to get video status"
  }

  /** How a wrapper settles: a rejected fetch propagates its error, a
      response that is not ok throws the wrapper's own message, and an ok
      response resolves to its body. */
  function Settle<T>(op: Operation, reply: Reply<T>): (r: Outcome<T>)
    ensures r.Success? <==> reply.Response? && reply.ok
    ensures r.Success? ==> r.payload == reply.json
    ensures reply.Response? && !reply.ok ==> r.msg == FailureMessage(op, reply.statusText)
    ensures reply.Rejected? ==> r.msg == reply.message
  {
    match reply
    case Rejected(message) => Failure(message)
    case Response(ok, statusText, json) =>
      if ok then Success(json) else Failure(FailureMessage(op, statusText))
  }

  /** `getSessions`: the `sessions` field of the body, or [] when it is absent. */
  function SettleSessions(reply: Reply<Option<seq<SessionSummary>>>): (r: Outcome<seq<SessionSummary>>)
    ensures r.Success? <==> reply.Response? && reply.ok
    ensures r.Success? ==> r.payload == (if reply.json.Some? then reply.json.value else [])
    ensures r.Failure? ==> r.msg == Settle(GetSessions, reply).msg
  {
    match Settle(GetSessions, reply)
    case Failure(m) => Failure(m)
    case Success(data) => Success(if data.Some? then data.value else [])
  }

  /** A blob: its parts and its MIME type. */
  datatype Blob = Blob(parts: seq<string>, mimeType: string)

  /** `getTimeline`; `now` stands for the clock reading the canned change
      would carry. */
  function GetTimeline(uid: string, now: string): (r: Outcome<seq<Change>>)
    ensures r == Failure(NotAvailable)
  {
    if UseDummy then Success([Change("change-1", uid, now, "edit", ["1.txt"], "yellow\U{2192}green")])
    else Failure(NotAvailable)
  }

  /** `exportRedline`; the options are not looked at on either branch. */
  function ExportRedline(uid: string, options: ExportOptions): (r: Outcome<Blob>)
    ensures r == Failure(NotAvailable)
  {
    if UseDummy then Success(Blob(["%PDF-1.4\n%Dummy PDF for ", uid], "application/pdf"))
    else Failure(NotAvailable)
  }

  /** Wrappers that fail on a non-ok response each throw a message of their
      own, so the error names the operation. */
  function Ordinal(op: Operation): nat {
    match op
    case UploadDocument(_) => 0
    case GetResult(_) => 1
    case GetClauseDetail(_, _) => 2
    case InsertGhostClause(_) => 3
    case NegotiateClause(_, _, _, _, _) => 4
    case ChatWithAssistant(_, _, _) => 5
    case GetSessions => 6
    case GetSessionHistory(_) => 7
    case GetSession(_) => 8
    case DeleteSession(_) => 9
    case StartVideoGen(_, _) => 10
    case GetVideoGenStatus(_) => 11
  }

  lemma FailureMessagesDistinct(a: Operation, b: Operation, sa: string, sb: string)
    requires Ordinal(a) != Ordinal(b)
    ensures FailureMessage(a, sa) != FailureMessage(b, sb)
  {
    if a.DeleteSession? {
      OnlyDeleteNamesDelete(b, sb);
      assert IsPrefix("Failed to d", FailureMessage(a, sa));
    } else if b.DeleteSession? {
      OnlyDeleteNamesDelete(a, sa);
      assert IsPrefix("Failed to d", FailureMessage(b, sb));
    }
  }

  /** Only the delete message starts "Failed to d". */
  lemma OnlyDeleteNamesDelete(op: Operation, st: string)
    requires !op.DeleteSession?
    ensures !IsPrefix("Failed to d", FailureMessage(op, st))
  {
    var m := FailureMessage(op, st);
    if |m| >= 11 {
      assert m[..11][0] == m[0] && m[..11][10] == m[10];
    }
  }

  /** A string without a '.' has no ".txt" in it. */
  lemma NoDotNoTxt(s: string)
    requires Avoids(s, '.')
    ensures !Contains(s, ".txt")
  {
    assert s[..|s|] == s;
    NoOccurrenceBefore(s, ".txt", |s|);
  }

  /** A ".txt" cannot start inside a string free of ".txt" and still reach
      into a ".txt" that follows it, because ".txt" does not overlap itself. */
  lemma FirstTxtAfter(x: string, rest: string)
    requires !Contains(x, ".txt")
    ensures IndexOf(x + ".txt" + rest, ".txt") == Some(|x|)
  {
    var s := x + ".txt" + rest;
    forall j: nat | j < |x| ensures !OccursAt(s, ".txt", j) {
      if j + 4 <= |x| {
        assert !OccursAt(x, ".txt", j);
        assert s[j..j + 4] == x[j..j + 4];
      } else if j + 4 <= |s| {
        assert s[|x|] == '.';
        assert s[j..j + 4][|x| - j] == s[|x|];
        assert ".txt"[|x| - j] != '.';
      }
    }
    assert s[|x|..|x| + 4] == ".txt";
    IndexOfFirst(s, ".txt", |x|);
  }

  /** Cleaning removes the first ".txt" even when more text follows it. */
  lemma {:induction false} CleanStripsFirstTxt(x: string, rest: string)
    requires !Contains(x, ".txt")
    ensures CleanClauseId(x + ".txt" + rest) == x + rest
  {
    FirstTxtAfter(x, rest);
    var s := x + ".txt" + rest;
    assert s[..|x|] == x;
    assert s[|x| + 4..] == rest;
  }

  lemma CleanKeepsPlainId(x: string)
    requires !Contains(x, ".txt")
    ensures CleanClauseId(x) == x
  {
  }

  /** The clause-detail path holds the cleaned id. */
  lemma ClauseDetailUrl(uid: string, clauseId: string)
    ensures RequestOf(GetClauseDetail(uid, clauseId)).url == Endpoint("clause/" + uid + "/" + CleanClauseId(clauseId))
  {
  }

  /** "3.txt" and "3" request the same clause: an id and the id with ".txt"
      appended give the same detail request. */
  lemma ClauseDetailIgnoresTxt(uid: string, x: string)
    requires !Contains(x, ".txt")
    ensures RequestOf(GetClauseDetail(uid, x + ".txt")) == RequestOf(GetClauseDetail(uid, x))
    ensures RequestOf(GetClauseDetail(uid, x)).url == Endpoint("clause/" + uid + "/" + x)
  {
    CleanStripsFirstTxt(x, "");
    assert x + ".txt" + "" == x + ".txt";
    assert x + "" == x;
  }

  /** Only the first occurrence goes: "a.txt.txt" becomes "a.txt". */
  lemma CleanRemovesOnlyFirst()
    ensures CleanClauseId("a.txt.txt") == "a.txt"
  {
    NoDotNoTxt("a");
    CleanStripsFirstTxt("a", ".txt");
    assert "a" + ".txt" + ".txt" == "a.txt.txt";
  }

  /** An occurrence that is not a suffix is removed too. */
  lemma CleanRemovesInnerTxt()
    ensures CleanClauseId("notes.txt.bak") == "notes.bak"
  {
    var x, rest := "notes", ".bak";
    assert Avoids(x, '.');
    NoDotNoTxt(x);
    CleanStripsFirstTxt(x, rest);
    assert x + ".txt" + rest == "notes.txt.bak";
    assert x + rest == "notes.bak";
  }

  /** The upload, result and video-status paths. */
  lemma ResourcePaths(form: UploadForm, uid: string, jobId: string)
    ensures RequestOf(UploadDocument(form)).url == Endpoint("upload")
    ensures RequestOf(GetResult(uid)).url == Endpoint("result/" + uid)
    ensures RequestOf(GetVideoGenStatus(jobId)).url == Endpoint("videogen/status/" + jobId)
  {
  }

  /** The upload's form parts carry the file, `doc_name` and `doc_type`. */
  lemma UploadBodyCarriesForm(form: UploadForm)
    ensures var parts := RequestOf(UploadDocument(form)).body.parts;
      && Lookup(parts, "file") == Some(Attachment(form.file))
      && Lookup(parts, "doc_name") == Some(Text(form.docName))
      && Lookup(parts, "doc_type") == Some(Text(form.docType))
  {
    var f, n, t := "file", "doc_name", "doc_type";
    var parts := [(f, Attachment(form.file)), (n, Text(form.docName)), (t, Text(form.docType))];
    assert RequestOf(UploadDocument(form)).body.parts == parts;
    assert f != n && f != t && n != t by {
      assert f[0] != n[0] && f[0] != t[0] && n[4] != t[4];
    }
    assert Lookup(parts, n) == Lookup(parts[1..], n);
    assert Lookup(parts, t) == Lookup(parts[1..], t) == Lookup(parts[1..][1..], t);
  }

  /** History, single-session fetch and delete share one path and differ in
      method only. */
  lemma SessionEndpointsShared(id: string)
    ensures RequestOf(GetSessionHistory(id)) == RequestOf(GetSession(id))
    ensures RequestOf(DeleteSession(id)) == RequestOf(GetSession(id)).(verb := Delete)
    ensures RequestOf(GetSession(id)).url == Endpoint("sessions/" + id)
  {
  }

  /** The chat body carries the question unchanged, and `session_id` exactly
      when one is given. */
  lemma ChatBodyCarriesArguments(uid: string, question: string, sessionId: Option<string>)
    ensures var b := RequestOf(ChatWithAssistant(uid, question, sessionId)).body;
      && Lookup(b.members, "uid") == Some(Text(uid))
      && Lookup(b.members, "question") == Some(Text(question))
      && Lookup(b.members, "session_id") == (if sessionId.Some? then Some(Text(sessionId.value)) else None)
  {
    var m := RequestOf(ChatWithAssistant(uid, question, sessionId)).body.members;
    assert m[0].0 == "uid" && m[1].0 == "question";
    assert m[1..][1..] == (if sessionId.Some? then [JsonMember("session_id", sessionId.value)] else []);
    assert Lookup(m, "session_id") == Lookup(m[1..], "session_id") == Lookup(m[1..][1..], "session_id");
  }

  /** The negotiate body lists exactly uid, clauseId, tone, origin and risk. */
  lemma NegotiateBodyCarriesArguments(uid: string, clauseId: string, tone: string, origin: string, risk: string)
    ensures var b := RequestOf(NegotiateClause(uid, clauseId, tone, origin, risk)).body;
      && |b.members| == 5
      && b.members[0] == ("uid", Text(uid))
      && b.members[1] == ("clauseId", Text(clauseId))
      && b.members[2] == ("tone", Text(tone))
      && b.members[3] == ("origin", Text(origin))
      && b.members[4] == ("risk", Text(risk))
  {
  }

  /** `deleteSession` resolves to nothing once the response is ok. */
  lemma DeleteYieldsNothing(id: string, st: string)
    ensures Settle(DeleteSession(id), Response(true, st, ())) == Success(())
    ensures Settle(DeleteSession(id), Response(false, st, ())) == Failure("Failed to delete session: " + st)
  {
  }
}
