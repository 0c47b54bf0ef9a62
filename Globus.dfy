/** The Globus transfer client (emop/lib/transfer/globus.py): the result
    normalisation every API call goes through, GOAuth token parsing, endpoint
    activation, transfer creation and the bounded status-polling loop. The
    transfer service itself is an oracle: the n-th request the client issues
    receives `answers(n)`. */
module Globus {
  import opened Common

  // ---------------------------------------------------------------------
  // _api_call: result normalisation
  // ---------------------------------------------------------------------

  /** The status code the library returns: a word such as "OK" or a number. */
  datatype StatusCode = CodeText(text: string) | CodeNumber(number: int)

  /** What one library call did: raised, or returned `(code, reason, data)`. */
  datatype ApiResponse =
    | Threw(message: string)
    | Answered(code: StatusCode, reason: string, data: Value)

  /** `OK_STATUS_CODES = ['OK', 200, 202, 204]`. */
  predicate OkStatus(code: StatusCode)
  {
    code == CodeText("OK") || code == CodeNumber(200) || code == CodeNumber(202) || code == CodeNumber(204)
  }

  /** `_api_call`'s return value: `{}` when the call raised or returned falsy
      data, otherwise the data itself, whatever the status code said. */
  function ApiCall(resp: ApiResponse): (r: Value)
    ensures resp.Threw? ==> r == Obj([])
    ensures resp.Answered? && !Truthy(resp.data) ==> r == Obj([])
    ensures resp.Answered? && Truthy(resp.data) ==> r == resp.data
    ensures DocumentAnswer(resp) ==> r.Obj?
  {
    match resp
    case Threw(_) => Obj([])
    case Answered(_, _, data) => if Truthy(data) then data else Obj([])
  }

  /** Whether `_api_call` logs the call as FAILED: a raised call is logged with
      the code "Exception", which is not an OK code. Only the log depends on it. */
  function LoggedAsFailure(resp: ApiResponse): (failed: bool)
    ensures resp.Threw? ==> failed
    ensures resp.Answered? ==> (failed <==> !OkStatus(resp.code))
  {
    match resp
    case Threw(_) => !OkStatus(CodeText("Exception"))
    case Answered(code, _, _) => !OkStatus(code)
  }

  /** The normalised value does not depend on the status code or the reason. */
  lemma ApiCallIgnoresStatus(c1: StatusCode, c2: StatusCode, reason1: string, reason2: string, data: Value)
    ensures ApiCall(Answered(c1, reason1, data)) == ApiCall(Answered(c2, reason2, data))
    ensures LoggedAsFailure(Answered(c1, reason1, data)) != LoggedAsFailure(Answered(c2, reason2, data))
        ==> OkStatus(c1) != OkStatus(c2)
  {
  }

  /** The library hands back its documents as dictionaries (or nothing). */
  predicate DocumentAnswer(resp: ApiResponse)
  {
    resp.Answered? ==> resp.data.Obj? || !Truthy(resp.data)
  }

  ghost predicate DocumentAnswers(answers: nat -> ApiResponse)
  {
    forall n: nat :: DocumentAnswer(answers(n))
  }

  // ---------------------------------------------------------------------
  // _parse_goauth_token
  // ---------------------------------------------------------------------

  /** `d.split('=')` of one token segment. */
  function Parts(segment: string): seq<string>
  {
    Split(segment, '=')
  }

  /** What the loop over `token.split('|')` leaves in `data` after the given
      segments; `v[1]` raises on a segment without '='. */
  function ParseSegments(segments: seq<string>): (r: Outcome<map<string, string>>)
    decreases |segments|
  {
    if segments == [] then Ok(map[])
    else
      match ParseSegments(segments[..|segments| - 1])
      case Raises(e) => Raises(e)
      case Ok(m) =>
        var v := Parts(segments[|segments| - 1]);
        if |v| < 2 then Raises("IndexError: list index out of range")
        else Ok(m[v[0] := v[1]])
  }

  /** `_parse_goauth_token(token)`: fills a dictionary segment by segment. */
  method ParseGoauthToken(token: string) returns (r: Outcome<map<string, string>>)
    ensures r == ParseSegments(Split(token, '|'))
  {
    var segments := Split(token, '|');
    var data: map<string, string> := map[];
    var i := 0;
    while i < |segments|
      invariant 0 <= i <= |segments|
      invariant ParseSegments(segments[..i]) == Ok(data)
    {
      assert segments[..i + 1][..i] == segments[..i];
      var v := Split(segments[i], '=');
      if |v| < 2 {
        r := Raises("IndexError: list index out of range");
        assert ParseSegments(segments[..i + 1]) == r;
        ParseRaisesStays(segments, i + 1);
        return;
      }
      data := data[v[0] := v[1]];
      i := i + 1;
    }
    assert segments[..i] == segments;
    r := Ok(data);
  }

  /** Once a prefix of the segments raises, the whole token raises. */
  lemma {:induction false} ParseRaisesStays(segments: seq<string>, n: nat)
    requires n <= |segments|
    requires ParseSegments(segments[..n]).Raises?
    ensures ParseSegments(segments) == ParseSegments(segments[..n])
    decreases |segments| - n
  {
    if n < |segments| {
      assert segments[..n + 1][..n] == segments[..n];
      ParseRaisesStays(segments, n + 1);
    } else {
      assert segments[..n] == segments;
    }
  }

  /** Parsing fails exactly when some segment has no '='. */
  lemma {:induction false} ParseRaisesIff(segments: seq<string>)
    ensures ParseSegments(segments).Raises? <==> exists k :: 0 <= k < |segments| && '=' !in segments[k]
    decreases |segments|
  {
    if segments != [] {
      var front := segments[..|segments| - 1];
      ParseRaisesIff(front);
      assert forall k :: 0 <= k < |front| ==> front[k] == segments[k];
      var last := segments[|segments| - 1];
      SplitHasTwoParts(last);
    }
  }

  /** A segment splits into at least two parts exactly when it holds an '='. */
  lemma SplitHasTwoParts(s: string)
    ensures |Split(s, '=')| >= 2 <==> '=' in s
  {
  }

  /** A segment whose key (text before the first '=') is `key`. */
  predicate HasKey(segment: string, key: string)
  {
    Parts(segment)[0] == key
  }

  /** On success every segment holds an '=' and so yields a key and a value. */
  lemma {:induction false} ParseOkSegments(segments: seq<string>)
    requires ParseSegments(segments).Ok?
    ensures forall k :: 0 <= k < |segments| ==> |Parts(segments[k])| >= 2
    decreases |segments|
  {
    if segments != [] {
      var front := segments[..|segments| - 1];
      ParseOkSegments(front);
      forall k | 0 <= k < |segments| ensures |Parts(segments[k])| >= 2 {
        if k < |front| { assert segments[k] == front[k]; }
      }
    }
  }

  /** On success the keys are exactly the segments' keys. */
  lemma {:induction false} ParseKeys(segments: seq<string>)
    requires ParseSegments(segments).Ok?
    ensures forall k :: 0 <= k < |segments| ==> Parts(segments[k])[0] in ParseSegments(segments).value
    ensures forall key :: key in ParseSegments(segments).value ==>
      exists k :: 0 <= k < |segments| && HasKey(segments[k], key)
    decreases |segments|
  {
    if segments != [] {
      var front := segments[..|segments| - 1];
      ParseKeys(front);
      var r := ParseSegments(segments).value;
      var v := Parts(segments[|segments| - 1]);
      assert r == ParseSegments(front).value[v[0] := v[1]];
      forall k | 0 <= k < |segments| ensures Parts(segments[k])[0] in r {
        if k < |front| { assert segments[k] == front[k]; }
      }
      forall key | key in r ensures exists k :: 0 <= k < |segments| && HasKey(segments[k], key) {
        if key == v[0] {
          assert HasKey(segments[|segments| - 1], key);
        } else {
          var k :| 0 <= k < |front| && HasKey(front[k], key);
          assert segments[k] == front[k];
        }
      }
    }
  }

  /** Each key maps to the value of its LAST segment: a later duplicate
      overwrites an earlier one. */
  lemma {:induction false} ParseLastWins(segments: seq<string>, key: string, k: nat)
    requires ParseSegments(segments).Ok?
    requires k < |segments| && HasKey(segments[k], key)
    requires forall j :: k < j < |segments| ==> !HasKey(segments[j], key)
    ensures |Parts(segments[k])| >= 2
    ensures key in ParseSegments(segments).value
    ensures ParseSegments(segments).value[key] == Parts(segments[k])[1]
    decreases |segments|
  {
    var front := segments[..|segments| - 1];
    var v := Parts(segments[|segments| - 1]);
    assert ParseSegments(segments).value == ParseSegments(front).value[v[0] := v[1]];
    if k < |segments| - 1 {
      assert !HasKey(segments[|segments| - 1], key);
      forall j | k < j < |front| ensures !HasKey(front[j], key) {
        assert front[j] == segments[j];
      }
      assert front[k] == segments[k];
      ParseLastWins(front, key, k);
    }
  }

  /** A key is the text before the first '=' and its value the text between
      the first and the second '='. */
  lemma SegmentParts(segment: string)
    requires '=' in segment
    ensures var i := IndexOf(segment, '=');
      Parts(segment)[0] == segment[..i]
      && '=' !in Parts(segment)[1]
      && StartsWith(segment[i + 1..], Parts(segment)[1])
      && (|Parts(segment)[1]| == |segment| - i - 1 || segment[i + 1 + |Parts(segment)[1]|] == '=')
  {
    var i := IndexOf(segment, '=');
    var rest := segment[i + 1..];
    assert Parts(segment) == [segment[..i]] + Split(rest, '=');
    if '=' in rest {
      var j := IndexOf(rest, '=');
      assert Split(rest, '=')[0] == rest[..j];
      assert segment[i + 1 + j] == rest[j];
    }
  }

  /** A token of two `key=value` pairs (such as `un=test|tokenid=fake-token-id`)
      parses to those two pairs. */
  lemma ParseTwoPairToken(k1: string, v1: string, k2: string, v2: string)
    requires '=' !in k1 && '=' !in v1 && '=' !in k2 && '=' !in v2
    requires '|' !in k1 && '|' !in v1 && '|' !in k2 && '|' !in v2
    ensures ParseSegments(Split(k1 + "=" + v1 + "|" + k2 + "=" + v2, '|')) == Ok(map[k1 := v1, k2 := v2])
  {
    var first := k1 + "=" + v1;
    var second := k2 + "=" + v2;
    assert k1 + "=" + v1 + "|" + k2 + "=" + v2 == first + ['|'] + second;
    SplitAt(first, second, '|');
    PartsExample(first, k1, v1);
    PartsExample(second, k2, v2);
    ParseTwoSegments(first, second, k1, v1, k2, v2);
  }

  lemma ParseTwoSegments(first: string, second: string, k1: string, v1: string, k2: string, v2: string)
    requires Parts(first) == [k1, v1] && Parts(second) == [k2, v2]
    ensures ParseSegments([first, second]) == Ok(map[k1 := v1, k2 := v2])
  {
    var segments := [first, second];
    assert segments[..1] == [first];
    assert [first][..0] == [];
    assert ParseSegments([first]) == Ok(map[k1 := v1]);
    assert ParseSegments(segments) == Ok(map[k1 := v1][k2 := v2]);
  }

  lemma PartsExample(segment: string, key: string, value: string)
    requires segment == key + "=" + value && '=' !in key && '=' !in value
    ensures Parts(segment) == [key, value]
  {
    SplitAt(key, value, '=');
  }

  /** Splitting a separator-free head, the separator and a separator-free tail. */
  lemma SplitAt(head: string, tail: string, sep: char)
    requires sep !in head && sep !in tail
    ensures Split(head + [sep] + tail, sep) == [head, tail]
  {
    var s := head + [sep] + tail;
    assert s[|head|] == sep;
    assert s[..|head|] == head;
    assert s[|head| + 1..] == tail;
    assert IndexOf(s, sep) == |head| by {
      IndexOfFirst(s, sep, |head|);
    }
  }

  lemma {:induction false} IndexOfFirst(s: string, c: char, i: nat)
    requires i < |s| && s[i] == c && c !in s[..i]
    ensures IndexOf(s, c) == i
    decreases i
  {
    if i > 0 {
      assert s[0] != c by { assert s[..i][0] == s[0]; }
      assert s[1..][..i - 1] == s[..i][1..];
      IndexOfFirst(s[1..], c, i - 1);
    }
  }

  // ---------------------------------------------------------------------
  // int() of a JSON value
  // ---------------------------------------------------------------------

  /** The decimal value of `acc` followed by the digits `s`, or None when
      `s` holds a character that is not a decimal digit. */
  function DigitsFrom(acc: nat, s: string): Option<nat>
    decreases |s|
  {
    if s == [] then Some(acc)
    else if '0' <= s[0] <= '9' then DigitsFrom(acc * 10 + (s[0] as int - '0' as int), s[1..])
    else None
  }

  /** The value of a non-empty run of decimal digits. */
  function Digits(s: string): Option<nat>
  {
    if s == [] then None else DigitsFrom(0, s)
  }

  /** `int(text)`: optional surrounding whitespace and sign, then decimal digits. */
  function ParseIntText(text: string): Outcome<int>
  {
    var t := StripSpace(text);
    var negative := t != [] && t[0] == '-';
    var digits := if t != [] && (t[0] == '-' || t[0] == '+') then Digits(t[1..]) else Digits(t);
    match digits
    case None => Raises("ValueError: invalid literal for int()")
    case Some(n) => if negative then Ok(-(n as int)) else Ok(n as int)
  }

  /** Python's `int(v)` for the JSON values a document can hold. */
  function PyInt(v: Value): Outcome<int>
  {
    match v
    case Num(n) => Ok(n)
    case Bool(b) => Ok(if b then 1 else 0)
    case Str(s) => ParseIntText(s)
    case _ => Raises("TypeError: int() argument must be a string or a number")
  }

  // ---------------------------------------------------------------------
  // check_activated and get_activate_url, as functions of the documents
  // ---------------------------------------------------------------------

  /** `d[key]` on a document: KeyError when absent. */
  function Index(d: Value, key: string): Outcome<Value>
    requires d.Obj?
  {
    match Get(d.fields, key)
    case Some(v) => Ok(v)
    case None => Raises("KeyError: " + key)
  }

  /** Whether check_activated goes on to call autoactivate: the endpoint
      document is non-empty and its "activated" field is false. */
  predicate NeedsAutoactivate(endpointData: Value)
    requires endpointData.Obj?
  {
    Truthy(endpointData) && Index(endpointData, "activated").Ok?
      && !Truthy(Index(endpointData, "activated").value)
  }

  /** The seconds of activation `check_activated` returns, given the endpoint
      document and, when it is consulted, the autoactivate document. */
  function ActivationSeconds(endpointData: Value, autoData: Value): Outcome<int>
    requires endpointData.Obj? && autoData.Obj?
  {
    if !Truthy(endpointData) then Ok(0)
    else match Index(endpointData, "activated")
      case Raises(e) => Raises(e)
      case Ok(activated) =>
        var source := if Truthy(activated) then endpointData else autoData;
        match Index(source, "expires_in")
        case Raises(e) => Raises(e)
        case Ok(v) =>
          match PyInt(v)
          case Raises(e) => Raises(e)
          case Ok(n) => if n == 0 then Ok(0) else Ok(n)
  }

  function Bind(o: Outcome<Value>, f: Value -> Outcome<int>): Outcome<int>
  {
    match o
    case Raises(e) => Raises(e)
    case Ok(v) => f(v)
  }

  /** An empty endpoint document reads as zero seconds; an activated endpoint
      reports its own `expires_in`; one that needs autoactivation reports the
      autoactivate document's `expires_in`; a document without "activated"
      raises KeyError. */
  lemma ActivationSecondsCases(endpointData: Value, autoData: Value)
    requires endpointData.Obj? && autoData.Obj?
    ensures var r := ActivationSeconds(endpointData, autoData);
      && (!Truthy(endpointData) ==> r == Ok(0))
      && (Truthy(endpointData) && Index(endpointData, "activated").Ok?
          && Truthy(Index(endpointData, "activated").value)
          ==> r == Bind(Index(endpointData, "expires_in"), PyInt))
      && (NeedsAutoactivate(endpointData) ==> r == Bind(Index(autoData, "expires_in"), PyInt))
      && (Truthy(endpointData) && Index(endpointData, "activated").Raises? ==> r == Raises("KeyError: activated"))
  {
  }

  /** The activation page `get_activate_url` points to; the URL text itself is
      built by the library's `encode_qs`. */
  datatype ActivateUrl = Unknown | ActivationPage(canonicalName: Value, id: Value)

  function ActivateUrlOf(data: Value): (r: ActivateUrl)
    requires data.Obj?
    ensures !Truthy(data) <==> r == Unknown
    ensures r.ActivationPage? ==>
      r.canonicalName == GetOrNull(data.fields, "canonical_name") && r.id == GetOrNull(data.fields, "id")
  {
    if !Truthy(data) then Unknown
    else ActivationPage(GetOrNull(data.fields, "canonical_name"), GetOrNull(data.fields, "id"))
  }

  // ---------------------------------------------------------------------
  // wait_for_task: bounded polling
  // ---------------------------------------------------------------------

  predicate Terminal(status: Value)
  {
    status == Str("SUCCEEDED") || status == Str("FAILED")
  }

  /** How many polls a wait makes when no poll sees a terminal status. */
  function MaxPolls(timeout: int, pollInterval: int): nat
    requires pollInterval > 0
  {
    if timeout < 0 then 0 else timeout / pollInterval + 1
  }

  /** Sleeps taken after the first `n` polls: one after each poll that left a
      positive budget. */
  function SleepsAfter(timeout: int, pollInterval: int, n: nat): nat
  {
    if n == 0 then 0
    else SleepsAfter(timeout, pollInterval, n - 1) + (if timeout - (n - 1) * pollInterval > 0 then 1 else 0)
  }

  lemma DivBounds(timeout: int, pollInterval: int, q: nat)
    requires pollInterval > 0 && timeout >= 0
    requires q * pollInterval <= timeout < (q + 1) * pollInterval
    ensures q == timeout / pollInterval
  {
    var d := timeout / pollInterval;
    var m := timeout % pollInterval;
    assert timeout == d * pollInterval + m && 0 <= m < pollInterval;
    if q < d {
      MulMono(q + 1, d, pollInterval);
      assert false;
    }
    if q > d {
      MulMono(d + 1, q, pollInterval);
      assert false;
    }
  }

  // ---------------------------------------------------------------------
  // The client object
  // ---------------------------------------------------------------------

  datatype Item = Item(source: string, destination: string)

  /** What a submitted transfer carries. */
  datatype TransferDoc = TransferDoc(
    submissionId: Value, source: string, destination: string,
    taskLabel: string, syncLevel: int, items: seq<Item>)

  /** The requests the client sends to the transfer service. */
  datatype ApiRequest =
    | EndpointRequest(endpoint: string, fields: string)
    | AutoactivateRequest(endpoint: string)
    | SubmissionIdRequest
    | TransferRequest(transfer: TransferDoc)
    | TaskRequest(taskId: Value, fields: string)

  /** The library's Transfer object; `add_item` appends a pair. */
  class Transfer {
    const submissionId: Value
    const source: string
    const destination: string
    const taskLabel: string
    const syncLevel: int
    var items: seq<Item>

    constructor (submissionId: Value, source: string, destination: string, taskLabel: string, syncLevel: int)
      ensures this.submissionId == submissionId && this.source == source
      ensures this.destination == destination && this.taskLabel == taskLabel && this.syncLevel == syncLevel
      ensures items == []
    {
      this.submissionId := submissionId;
      this.source := source;
      this.destination := destination;
      this.taskLabel := taskLabel;
      this.syncLevel := syncLevel;
      items := [];
    }

    method AddItem(src: string, dest: string)
      modifies this
      ensures items == old(items) + [Item(src, dest)]
    {
      items := items + [Item(src, dest)];
    }

    function Document(): TransferDoc
      reads this
    {
      TransferDoc(submissionId, source, destination, taskLabel, syncLevel, items)
    }
  }

  class GlobusClient {
    /** The raw answer to the n-th request this client sends. */
    const answers: nat -> ApiResponse
    /** Every request sent so far, in order. */
    var requests: seq<ApiRequest>
    /** `self.transfer`: the last Transfer created. */
    var transfer: Transfer?
    /** Sleeps taken while polling. */
    ghost var sleeps: nat

    ghost predicate Valid()
    {
      DocumentAnswers(answers)
    }

    constructor (answers: nat -> ApiResponse)
      requires DocumentAnswers(answers)
      ensures Valid() && this.answers == answers
      ensures requests == [] && transfer == null && sleeps == 0
    {
      this.answers := answers;
      requests := [];
      transfer := null;
      sleeps := 0;
    }

    /** The normalised answer to the request with index n. */
    function Answer(n: nat): (r: Value)
      requires Valid()
      ensures r.Obj?
    {
      assert DocumentAnswer(answers(n));
      ApiCall(answers(n))
    }

    /** `_api_call`: send one request and normalise its answer. */
    method Call(req: ApiRequest) returns (data: Value)
      requires Valid()
      modifies this`requests
      ensures requests == old(requests) + [req]
      ensures data == Answer(|old(requests)|) && data.Obj?
    {
      data := Answer(|requests|);
      requests := requests + [req];
    }

    /** The requests `check_activated(endpoint)` sends when the first of them
        has index n. */
    function ActivationRequests(n: nat, endpoint: string): (reqs: seq<ApiRequest>)
      requires Valid()
      ensures 1 <= |reqs| <= 2 && reqs[0] == EndpointRequest(endpoint, "activated,expires_in")
    {
      if NeedsAutoactivate(Answer(n)) then
        [EndpointRequest(endpoint, "activated,expires_in"), AutoactivateRequest(endpoint)]
      else [EndpointRequest(endpoint, "activated,expires_in")]
    }

    /** What `check_activated` returns when its first request has index n. */
    function ActivationResult(n: nat): Outcome<int>
      requires Valid()
    {
      if NeedsAutoactivate(Answer(n)) then ActivationSeconds(Answer(n), Answer(n + 1))
      else ActivationSeconds(Answer(n), Obj([]))
    }

    /** `check_activated(endpoint)`. */
    method CheckActivated(endpoint: string) returns (r: Outcome<int>)
      requires Valid()
      modifies this`requests
      ensures requests == old(requests) + ActivationRequests(|old(requests)|, endpoint)
      ensures r == ActivationResult(|old(requests)|)
    {
      var endpointData := Call(EndpointRequest(endpoint, "activated,expires_in"));
      if !Truthy(endpointData) {
        return Ok(0);
      }
      var activated := Index(endpointData, "activated");
      if activated.Raises? {
        return Raises(activated.error);
      }
      var expires: Outcome<Value>;
      if Truthy(activated.value) {
        expires := Index(endpointData, "expires_in");
      } else {
        var autoData := Call(AutoactivateRequest(endpoint));
        expires := Index(autoData, "expires_in");
      }
      if expires.Raises? {
        return Raises(expires.error);
      }
      var seconds := PyInt(expires.value);
      if seconds.Raises? {
        return seconds;
      }
      if seconds.value == 0 {
        r := Ok(0);
      } else {
        r := Ok(seconds.value);
      }
    }

    /** `get_activate_url(endpoint)`. */
    method GetActivateUrl(endpoint: string) returns (r: ActivateUrl)
      requires Valid()
      modifies this`requests
      ensures requests == old(requests) + [EndpointRequest(endpoint, "canonical_name,id")]
      ensures r == ActivateUrlOf(Answer(|old(requests)|))
    {
      var data := Call(EndpointRequest(endpoint, "canonical_name,id"));
      r := ActivateUrlOf(data);
    }

    /** `create_transfer(src, dest, label=..., sync_level=...)`: no Transfer is
        constructed when the service gives no submission id. */
    method CreateTransfer(src: string, dest: string, taskLabel: string, syncLevel: int) returns (t: Transfer?)
      requires Valid()
      modifies this`requests, this`transfer
      ensures requests == old(requests) + [SubmissionIdRequest]
      ensures var sid := GetOrNull(Answer(|old(requests)|).fields, "value");
        if Truthy(sid) then
          t != null && fresh(t) && transfer == t && t.items == []
          && t.Document() == TransferDoc(sid, src, dest, taskLabel, syncLevel, [])
        else
          t == null && transfer == old(transfer)
    {
      var data := Call(SubmissionIdRequest);
      var sid := GetOrNull(data.fields, "value");
      if !Truthy(sid) {
        return null;
      }
      t := new Transfer(sid, src, dest, taskLabel, syncLevel);
      transfer := t;
    }

    /** `send_transfer(transfer)`: the task id of the answer, None if absent. */
    method SendTransfer(t: Transfer) returns (taskId: Value)
      requires Valid()
      modifies this`requests
      ensures requests == old(requests) + [TransferRequest(t.Document())]
      ensures taskId == GetOrNull(Answer(|old(requests)|).fields, "task_id")
    {
      var data := Call(TransferRequest(t.Document()));
      taskId := GetOrNull(data.fields, "task_id");
    }

    /** The status the n-th request's answer reports. */
    function StatusAt(n: nat): Value
      requires Valid()
    {
      GetOrNull(Answer(n).fields, "status")
    }

    /** `wait_for_task(task_id, timeout, poll_interval)`: polls until a terminal
        status or until the budget is spent; None on timeout. */
    method WaitForTask(taskId: Value, timeout: int, pollInterval: int) returns (r: Value, polls: nat)
      requires Valid() && pollInterval > 0
      modifies this`requests, this`sleeps
      ensures |requests| == |old(requests)| + polls && requests[..|old(requests)|] == old(requests)
      ensures forall k :: |old(requests)| <= k < |requests| ==> requests[k] == TaskRequest(taskId, "status")
      ensures polls <= MaxPolls(timeout, pollInterval)
      ensures Terminal(r) ==> polls >= 1 && r == StatusAt(|requests| - 1) && sleeps == old(sleeps) + polls - 1
      ensures Terminal(r) ==> forall k :: |old(requests)| <= k < |requests| - 1 ==> !Terminal(StatusAt(k))
      ensures !Terminal(r) ==> r == Null && polls == MaxPolls(timeout, pollInterval)
      ensures !Terminal(r) ==> forall k :: |old(requests)| <= k < |requests| ==> !Terminal(StatusAt(k))
      ensures !Terminal(r) ==> sleeps == old(sleeps) + SleepsAfter(timeout, pollInterval, polls)
    {
      ghost var base := |requests|;
      var timeoutLeft := timeout;
      polls := 0;
      while timeoutLeft >= 0
        invariant timeoutLeft == timeout - polls * pollInterval
        invariant |requests| == base + polls && requests[..base] == old(requests)
        invariant forall k :: base <= k < |requests| ==> requests[k] == TaskRequest(taskId, "status")
        invariant forall k :: base <= k < |requests| ==> !Terminal(StatusAt(k))
        invariant polls == 0 || (polls - 1) * pollInterval <= timeout
        invariant sleeps == old(sleeps) + SleepsAfter(timeout, pollInterval, polls)
        decreases timeoutLeft + pollInterval
      {
        var data := Call(TaskRequest(taskId, "status"));
        var status := GetOrNull(data.fields, "status");
        assert (polls + 1) * pollInterval == polls * pollInterval + pollInterval;
        if Terminal(status) {
          polls := polls + 1;
          SleepsBeforeLast(timeout, pollInterval, polls);
          DivUpper(timeout, pollInterval, polls - 1);
          return status, polls;
        }
        if timeoutLeft > 0 {
          sleeps := sleeps + 1;
        }
        timeoutLeft := timeoutLeft - pollInterval;
        polls := polls + 1;
      }
      if timeout >= 0 {
        DivBounds(timeout, pollInterval, polls - 1);
      }
      r := Null;
    }
  }

  /** Before the last poll, every earlier poll left a positive budget. */
  lemma SleepsBeforeLast(timeout: int, pollInterval: int, n: nat)
    requires pollInterval > 0 && n >= 1 && (n - 1) * pollInterval <= timeout
    ensures SleepsAfter(timeout, pollInterval, n - 1) == n - 1
  {
    var m := n - 1;
    var k := m;
    while k > 0
      invariant 0 <= k <= m
      invariant SleepsAfter(timeout, pollInterval, m) == SleepsAfter(timeout, pollInterval, k) + (m - k)
    {
      assert (k - 1) * pollInterval < m * pollInterval;
      k := k - 1;
    }
  }

  lemma DivUpper(timeout: int, pollInterval: int, q: nat)
    requires pollInterval > 0 && q * pollInterval <= timeout
    ensures q + 1 <= MaxPolls(timeout, pollInterval)
  {
    var d := timeout / pollInterval;
    if q > d {
      MulMono(d + 1, q, pollInterval);
      assert false;
    }
  }

  lemma MulMono(a: int, b: int, p: int)
    requires a <= b && p > 0
    ensures a * p <= b * p
  {
  }
}
