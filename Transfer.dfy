/** Payload transfers (emop/emop_transfer.py): which files a batch needs, the
    (source, destination) pairs for staging in and out, the choice of output
    payload, endpoint activation, and starting one Globus transfer. The payload
    files of each proc_id are an oracle. */
module Transfers {
  import opened Common
  import opened Settings
  import opened Globus

  /** `EmopPage.transfer_attributes`: the page fields that name files to stage in. */
  const TransferAttributes: seq<string> := ["pg_image_path", "pg_ground_truth_file"]

  /** `wait_for_task`'s default poll interval, in seconds. */
  const PollInterval: int := 10

  /** The sync level every transfer is created with. */
  const SyncLevel: int := 2

  const StageInLabel: string := "emop-stage-in-files"

  const NoGet: string := "AttributeError: object has no attribute 'get'"

  /** `EmopBase.add_prefix(prefix, path)`: plain concatenation. */
  function AddPrefix(prefix: string, path: string): (r: string)
    ensures |r| == |prefix| + |path|
    ensures StartsWith(r, prefix) && r[|prefix|..] == path
  {
    prefix + path
  }

  /** The elements `for x in v` visits: a list's items, a dictionary's keys,
      a string's characters; anything else is not iterable. */
  function Iterated(v: Value): (r: Outcome<seq<Value>>)
    ensures v.Arr? ==> r == Ok(v.items)
    ensures r.Raises? <==> !(v.Arr? || v.Obj? || v.Str?)
  {
    match v
    case Arr(items) => Ok(items)
    case Obj(fields) => Ok(seq(|fields|, k requires 0 <= k < |fields| => Str(fields[k].0)))
    case Str(s) => Ok(seq(|s|, k requires 0 <= k < |s| => Str([s[k]])))
    case _ => Raises("TypeError: object is not iterable")
  }

  // ---------------------------------------------------------------------
  // _get_stage_in_files_from_data
  // ---------------------------------------------------------------------

  /** The values a page holds under `keys` that are not None, in key order. */
  function PageFiles(page: Record, keys: seq<string>): (r: seq<Value>)
    ensures |r| <= |keys|
    ensures forall k :: 0 <= k < |r| ==> r[k] != Null
  {
    if keys == [] then []
    else
      var v := GetOrNull(page, keys[0]);
      (if v != Null then [v] else []) + PageFiles(page, keys[1..])
  }

  /** The files one dashboard record contributes. */
  function RecordFiles(p: Value): Outcome<seq<Value>>
  {
    if !p.Obj? then Raises(NoGet)
    else
      var page := GetOrNull(p.fields, "page");
      if page == Null then Ok([])
      else if !page.Obj? then Raises(NoGet)
      else Ok(PageFiles(page.fields, TransferAttributes))
  }

  /** The files of a list of records, record by record. */
  function FilesOf(records: seq<Value>): Outcome<seq<Value>>
  {
    if records == [] then Ok([])
    else Then(RecordFiles(records[0]), FilesOf(records[1..]))
  }

  function FilesOfData(data: Value): Outcome<seq<Value>>
  {
    match Iterated(data)
    case Raises(e) => Raises(e)
    case Ok(records) => FilesOf(records)
  }

  /** A value is listed for a page exactly when it is a non-None value of one
      of the keys. */
  lemma {:induction false} PageFilesMembers(page: Record, keys: seq<string>, v: Value)
    ensures v in PageFiles(page, keys) <==> v != Null && exists k :: 0 <= k < |keys| && GetOrNull(page, keys[k]) == v
    decreases |keys|
  {
    if keys != [] {
      PageFilesMembers(page, keys[1..], v);
      if exists k :: 0 <= k < |keys| && GetOrNull(page, keys[k]) == v {
        var k :| 0 <= k < |keys| && GetOrNull(page, keys[k]) == v;
        if k > 0 { assert keys[1..][k - 1] == keys[k]; }
      }
      if exists k :: 0 <= k < |keys[1..]| && GetOrNull(page, keys[1..][k]) == v {
        var k :| 0 <= k < |keys[1..]| && GetOrNull(page, keys[1..][k]) == v;
        assert keys[k + 1] == keys[1..][k];
      }
    }
  }

  /** A page yields its image path, then its ground-truth file, each only if
      it is not None. */
  lemma TransferFilesOfPage(page: Record)
    ensures var image := GetOrNull(page, "pg_image_path");
      var truth := GetOrNull(page, "pg_ground_truth_file");
      PageFiles(page, TransferAttributes)
        == (if image != Null then [image] else []) + (if truth != Null then [truth] else [])
  {
    assert TransferAttributes[1..] == ["pg_ground_truth_file"];
    assert TransferAttributes[1..][1..] == [];
  }

  /** The files of two runs of records are the files of each, concatenated. */
  lemma {:induction false} FilesOfAppend(a: seq<Value>, b: seq<Value>)
    ensures FilesOf(a + b) == Then(FilesOf(a), FilesOf(b))
    decreases |a|
  {
    if a == [] {
      assert a + b == b;
      ThenNil(FilesOf(b));
    } else {
      assert (a + b)[0] == a[0];
      assert (a + b)[1..] == a[1..] + b;
      FilesOfAppend(a[1..], b);
      ThenAssoc(RecordFiles(a[0]), FilesOf(a[1..]), FilesOf(b));
    }
  }

  /** A record without a page contributes nothing, wherever it stands. */
  lemma FilesOfSkipsPageless(a: seq<Value>, p: Value, b: seq<Value>)
    requires p.Obj? && Get(p.fields, "page") == None
    ensures FilesOf(a + [p] + b) == FilesOf(a + b)
  {
    FilesOfAppend(a + [p], b);
    FilesOfAppend(a, [p]);
    FilesOfAppend(a, b);
    assert [p][1..] == [];
    assert FilesOf([p]) == Then(Ok([]), Ok([]));
    ThenNil<Value>(Ok([]));
    ThenNil(FilesOf(a));
  }

  /** The record list is accepted exactly when every record is a dictionary
      whose page is absent, None or a dictionary. */
  lemma {:induction false} FilesOfOkIff(records: seq<Value>)
    ensures FilesOf(records).Ok? <==> forall k :: 0 <= k < |records| ==> RecordFiles(records[k]).Ok?
    decreases |records|
  {
    if records != [] {
      FilesOfOkIff(records[1..]);
      assert forall k :: 1 <= k < |records| ==> records[k] == records[1..][k - 1];
      if FilesOf(records).Ok? {
        assert RecordFiles(records[0]).Ok?;
      }
    }
  }

  // ---------------------------------------------------------------------
  // _get_stage_in_data and _get_stage_out_data
  // ---------------------------------------------------------------------

  /** One stage-in pair per file: from the file to the file under `prefix`.
      `add_prefix` of a non-string is not representable and reads as a TypeError. */
  function InPairs(prefix: string, files: seq<Value>): Outcome<seq<Item>>
  {
    if files == [] then Ok([])
    else if !files[0].Str? then Raises("TypeError: path is not a string")
    else Prepend([Item(files[0].s, AddPrefix(prefix, files[0].s))], InPairs(prefix, files[1..]))
  }

  /** Stage-in pairs are one per file, in order, from `f` to `prefix + f`. */
  lemma {:induction false} InPairsSpec(prefix: string, files: seq<Value>)
    ensures InPairs(prefix, files).Ok? <==> forall k :: 0 <= k < |files| ==> files[k].Str?
    ensures InPairs(prefix, files).Ok? ==>
      |InPairs(prefix, files).value| == |files|
      && forall k :: 0 <= k < |files| ==>
        InPairs(prefix, files).value[k] == Item(files[k].s, AddPrefix(prefix, files[k].s))
    decreases |files|
  {
    if files != [] {
      InPairsSpec(prefix, files[1..]);
      assert forall k :: 1 <= k < |files| ==> files[k] == files[1..][k - 1];
    }
  }

  /** The pairs of one `page_results` entry's values: each absolute string
      value goes from its place under `prefix` back to itself. */
  function OutPairsOfValues(prefix: string, values: seq<Value>): (r: seq<Item>)
    ensures |r| <= |values|
  {
    if values == [] then []
    else
      var v := values[0];
      (if v.Str? && IsAbs(v.s) then [Item(AddPrefix(prefix, v.s), v.s)] else [])
        + OutPairsOfValues(prefix, values[1..])
  }

  function ValuesOf(fields: Record): seq<Value>
  {
    seq(|fields|, k requires 0 <= k < |fields| => fields[k].1)
  }

  function ResultPairs(prefix: string, result: Value): Outcome<seq<Item>>
  {
    if !result.Obj? then Raises("AttributeError: object has no attribute 'values'")
    else Ok(OutPairsOfValues(prefix, ValuesOf(result.fields)))
  }

  function OutPairs(prefix: string, results: seq<Value>): Outcome<seq<Item>>
  {
    if results == [] then Ok([])
    else Then(ResultPairs(prefix, results[0]), OutPairs(prefix, results[1..]))
  }

  /** `data.get("page_results", [])`, then the pairs of every entry. */
  function StageOutData(prefix: string, data: Value): Outcome<seq<Item>>
  {
    if !data.Obj? then Raises(NoGet)
    else
      var pageResults := match Get(data.fields, "page_results") case None => Arr([]) case Some(v) => v;
      match Iterated(pageResults)
      case Raises(e) => Raises(e)
      case Ok(results) => OutPairs(prefix, results)
  }

  /** Every stage-out item goes to an absolute path from that path under the
      prefix, and every absolute string value gets one; relative values and
      non-strings get none. */
  lemma {:induction false} OutPairsOfValuesSpec(prefix: string, values: seq<Value>)
    ensures forall it :: it in OutPairsOfValues(prefix, values) ==>
      IsAbs(it.destination) && it.source == AddPrefix(prefix, it.destination) && Str(it.destination) in values
    ensures forall k :: 0 <= k < |values| && values[k].Str? && IsAbs(values[k].s) ==>
      Item(AddPrefix(prefix, values[k].s), values[k].s) in OutPairsOfValues(prefix, values)
    ensures (forall k :: 0 <= k < |values| ==> !values[k].Str? || !IsAbs(values[k].s))
      ==> OutPairsOfValues(prefix, values) == []
    decreases |values|
  {
    if values != [] {
      OutPairsOfValuesSpec(prefix, values[1..]);
      assert forall k :: 1 <= k < |values| ==> values[k] == values[1..][k - 1];
    }
  }

  /** A dictionary without page_results stages nothing out. */
  lemma StageOutWithoutResults(prefix: string, data: Value)
    requires data.Obj? && Get(data.fields, "page_results") == None
    ensures StageOutData(prefix, data) == Ok([])
  {
  }

  /** A value staged in from `p` lands at `prefix + p`; staged out it travels
      the other way. */
  lemma StageOutMirrorsStageIn(prefix: string, p: string)
    requires IsAbs(p)
    ensures InPairs(prefix, [Str(p)]) == Ok([Item(p, AddPrefix(prefix, p))])
    ensures OutPairsOfValues(prefix, [Str(p)]) == [Item(AddPrefix(prefix, p), p)]
  {
    assert [Str(p)][1..] == [];
    assert [Item(p, AddPrefix(prefix, p))] + [] == [Item(p, AddPrefix(prefix, p))];
  }

  // ---------------------------------------------------------------------
  // Payload choice and activation
  // ---------------------------------------------------------------------

  /** A proc_id's payload files: None when a file does not exist, otherwise
      what loading it gives. */
  datatype PayloadFiles = PayloadFiles(
    input: Option<Value>, completed: Option<Value>, output: Option<Value>, uploaded: Option<Value>)

  /** The output payload `stage_out_proc_id` stages out: completed output,
      then output, then uploaded output. */
  function StageOutSource(p: PayloadFiles): (r: Option<Value>)
    ensures r.None? <==> p.completed.None? && p.output.None? && p.uploaded.None?
    ensures p.completed.Some? ==> r == p.completed
    ensures p.completed.None? && p.output.Some? ==> r == p.output
    ensures p.completed.None? && p.output.None? ==> r == p.uploaded
  {
    if p.completed.Some? then p.completed
    else if p.output.Some? then p.output
    else p.uploaded
  }

  /** `_check_activation`'s verdict on the seconds an endpoint stays active. */
  function ActivationAcceptable(expiresIn: int, minActivationTime: int, failOnWarn: bool): (ok: bool)
    ensures expiresIn == 0 ==> !ok
    ensures !failOnWarn ==> (ok <==> expiresIn != 0)
    ensures failOnWarn ==> (ok <==> expiresIn != 0 && expiresIn >= minActivationTime)
  {
    var activated := expiresIn != 0;
    if expiresIn < minActivationTime && failOnWarn then false else activated
  }

  function Acceptance(seconds: Outcome<int>, minActivationTime: int, failOnWarn: bool): Outcome<bool>
  {
    match seconds
    case Raises(e) => Raises(e)
    case Ok(n) => Ok(ActivationAcceptable(n, minActivationTime, failOnWarn))
  }

  function AndOutcome(valid: bool, rest: Outcome<bool>): Outcome<bool>
  {
    match rest
    case Raises(e) => Raises(e)
    case Ok(b) => Ok(valid && b)
  }

  lemma AndOutcomeAssoc(valid: bool, accepted: bool, rest: Outcome<bool>)
    ensures AndOutcome(valid && accepted, rest) == AndOutcome(valid, AndOutcome(accepted, rest))
  {
  }

  /** Two checks one after the other: the first exception ends the check,
      otherwise the verdict is the conjunction of the two. */
  function PairOf(one: (Outcome<bool>, seq<ApiRequest>), two: (Outcome<bool>, seq<ApiRequest>)): (Outcome<bool>, seq<ApiRequest>)
  {
    if one.0.Raises? then one
    else if two.0.Raises? then (two.0, one.1 + two.1)
    else (Ok(one.0.value && two.0.value), one.1 + two.1)
  }

  lemma SuffixAfter<T>(start: seq<T>, a: seq<T>, b: seq<T>)
    ensures (start + a) + b == start + (a + b) && ((start + a) + b)[|start|..] == a + b
    ensures (start + a) + [] == start + a && (start + a)[|start|..] == a
  {
  }

  predicate IsActivateUrlRequest(req: ApiRequest)
  {
    req.EndpointRequest? && req.fields == "canonical_name,id"
  }

  predicate NoActivateUrlRequest(reqs: seq<ApiRequest>)
  {
    forall j :: 0 <= j < |reqs| ==> !IsActivateUrlRequest(reqs[j])
  }

  lemma NoActivateUrlConcat(a: seq<ApiRequest>, b: seq<ApiRequest>)
    ensures NoActivateUrlRequest(a + b) <==> NoActivateUrlRequest(a) && NoActivateUrlRequest(b)
  {
    if NoActivateUrlRequest(a) && NoActivateUrlRequest(b) {
      forall j | 0 <= j < |a + b| ensures !IsActivateUrlRequest((a + b)[j]) {
        if j >= |a| { assert (a + b)[j] == b[j - |a|]; }
      }
    }
    if NoActivateUrlRequest(a + b) {
      forall j | 0 <= j < |a| ensures !IsActivateUrlRequest(a[j]) {
        assert (a + b)[j] == a[j];
      }
      forall j | 0 <= j < |b| ensures !IsActivateUrlRequest(b[j]) {
        assert (a + b)[|a| + j] == b[j];
      }
    }
  }

  // ---------------------------------------------------------------------
  // start
  // ---------------------------------------------------------------------

  /** What `start(src, dest, items, label, wait)` does to the client's request
      log `before` (giving `after`) and returns. */
  ghost predicate StartedTransfer(g: GlobusClient, before: seq<ApiRequest>, after: seq<ApiRequest>,
      src: string, dest: string, items: seq<Item>, taskLabel: string, wait: int, r: Outcome<Value>)
    requires g.Valid()
  {
    var n := |before|;
    var sid := GetOrNull(g.Answer(n).fields, "value");
    && |after| >= n + 1 && after[..n + 1] == before + [SubmissionIdRequest]
    && (items == [] ==> r == Ok(Str("")) && |after| == n + 1)
    && (items != [] && !Truthy(sid) ==> r.Raises? && |after| == n + 1)
    && (items != [] && Truthy(sid) ==>
          && |after| >= n + 2
          && after[n + 1] == TransferRequest(TransferDoc(sid, src, dest, taskLabel, SyncLevel, items))
          && r == Ok(GetOrNull(g.Answer(n + 1).fields, "task_id"))
          && (forall k :: n + 2 <= k < |after| ==> after[k] == TaskRequest(r.value, "status"))
          && |after| - (n + 2) <= (if wait == 0 then 0 else MaxPolls(wait, PollInterval)))
  }

  /** The loop over the transfer attributes of one page. */
  method CollectPageFiles(page: Record, keys: seq<string>) returns (files: seq<Value>)
    ensures files == PageFiles(page, keys)
  {
    files := [];
    var j := 0;
    assert keys[0..] == keys;
    while j < |keys|
      invariant 0 <= j <= |keys|
      invariant PageFiles(page, keys) == files + PageFiles(page, keys[j..])
    {
      assert keys[j..][1..] == keys[j + 1..];
      var file := GetOrNull(page, keys[j]);
      if file != Null {
        files := files + [file];
      }
      j := j + 1;
    }
    assert keys[j..] == [];
    assert files + [] == files;
  }

  /** The loop over the values of one `page_results` entry. */
  method CollectOutPairs(prefix: string, values: seq<Value>) returns (found: seq<Item>)
    ensures found == OutPairsOfValues(prefix, values)
  {
    found := [];
    var j := 0;
    assert values[0..] == values;
    while j < |values|
      invariant 0 <= j <= |values|
      invariant OutPairsOfValues(prefix, values) == found + OutPairsOfValues(prefix, values[j..])
    {
      assert values[j..][1..] == values[j + 1..];
      var v := values[j];
      if v.Str? && IsAbs(v.s) {
        found := found + [Item(AddPrefix(prefix, v.s), v.s)];
      }
      j := j + 1;
    }
    assert values[j..] == [];
    assert found + [] == found;
  }

  class EmopTransfer {
    const settings: Settings
    const globus: GlobusClient
    /** The payload files of each proc_id. */
    const payloads: string -> PayloadFiles

    ghost predicate Valid()
    {
      globus.Valid()
    }

    constructor (settings: Settings, globus: GlobusClient, payloads: string -> PayloadFiles)
      requires globus.Valid()
      ensures Valid() && this.settings == settings && this.globus == globus && this.payloads == payloads
    {
      this.settings := settings;
      this.globus := globus;
      this.payloads := payloads;
    }

    /** `_get_stage_in_files_from_data(data)`. */
    method GetStageInFilesFromData(data: Value) returns (r: Outcome<seq<Value>>)
      ensures r == FilesOfData(data)
    {
      var it := Iterated(data);
      if it.Raises? {
        return Raises(it.error);
      }
      var records := it.value;
      var files: seq<Value> := [];
      var i := 0;
      assert records[0..] == records;
      PrependNil(FilesOf(records));
      while i < |records|
        invariant 0 <= i <= |records|
        invariant FilesOf(records) == Prepend(files, FilesOf(records[i..]))
      {
        assert records[i..][1..] == records[i + 1..];
        assert records[i..][0] == records[i];
        var p := records[i];
        if !p.Obj? {
          return Raises(NoGet);
        }
        var page := GetOrNull(p.fields, "page");
        if page != Null {
          if !page.Obj? {
            return Raises(NoGet);
          }
          var pageFiles := CollectPageFiles(page.fields, TransferAttributes);
          PrependPrepend(files, pageFiles, FilesOf(records[i + 1..]));
          files := files + pageFiles;
        } else {
          PrependNil(FilesOf(records[i + 1..]));
        }
        i := i + 1;
      }
      assert records[i..] == [];
      assert files + [] == files;
      r := Ok(files);
    }

    /** `_get_stage_in_data(files)`. */
    method GetStageInData(files: seq<Value>) returns (r: Outcome<seq<Item>>)
      ensures r == InPairs(settings.inputPathPrefix, files)
    {
      var pairs: seq<Item> := [];
      var i := 0;
      assert files[0..] == files;
      PrependNil(InPairs(settings.inputPathPrefix, files));
      while i < |files|
        invariant 0 <= i <= |files|
        invariant InPairs(settings.inputPathPrefix, files) == Prepend(pairs, InPairs(settings.inputPathPrefix, files[i..]))
      {
        assert files[i..][1..] == files[i + 1..];
        assert files[i..][0] == files[i];
        if !files[i].Str? {
          return Raises("TypeError: path is not a string");
        }
        var f := files[i].s;
        PrependPrepend(pairs, [Item(f, AddPrefix(settings.inputPathPrefix, f))], InPairs(settings.inputPathPrefix, files[i + 1..]));
        pairs := pairs + [Item(f, AddPrefix(settings.inputPathPrefix, f))];
        i := i + 1;
      }
      assert files[i..] == [];
      assert pairs + [] == pairs;
      r := Ok(pairs);
    }

    /** `_get_stage_out_data(data)`. */
    method GetStageOutData(data: Value) returns (r: Outcome<seq<Item>>)
      ensures r == StageOutData(settings.outputPathPrefix, data)
    {
      var prefix := settings.outputPathPrefix;
      if !data.Obj? {
        return Raises(NoGet);
      }
      var pageResults := match Get(data.fields, "page_results") case None => Arr([]) case Some(v) => v;
      var it := Iterated(pageResults);
      if it.Raises? {
        return Raises(it.error);
      }
      var results := it.value;
      var pairs: seq<Item> := [];
      var i := 0;
      assert results[0..] == results;
      PrependNil(OutPairs(prefix, results));
      while i < |results|
        invariant 0 <= i <= |results|
        invariant OutPairs(prefix, results) == Prepend(pairs, OutPairs(prefix, results[i..]))
      {
        assert results[i..][1..] == results[i + 1..];
        assert results[i..][0] == results[i];
        var result := results[i];
        if !result.Obj? {
          return Raises("AttributeError: object has no attribute 'values'");
        }
        var found := CollectOutPairs(prefix, ValuesOf(result.fields));
        PrependPrepend(pairs, found, OutPairs(prefix, results[i + 1..]));
        pairs := pairs + found;
        i := i + 1;
      }
      assert results[i..] == [];
      assert pairs + [] == pairs;
      r := Ok(pairs);
    }

    /** `start(src, dest, data, label, wait)`: creates the transfer first, then
        gives up on empty data, adds one item per pair and sends it. */
    method Start(src: string, dest: string, data: seq<Item>, taskLabel: string, wait: int) returns (r: Outcome<Value>)
      requires Valid()
      modifies globus
      ensures StartedTransfer(globus, old(globus.requests), globus.requests, src, dest, data, taskLabel, wait, r)
    {
      ghost var n := |globus.requests|;
      var t := globus.CreateTransfer(src, dest, taskLabel, SyncLevel);
      if data == [] {
        return Ok(Str(""));
      }
      if t == null {
        return Raises("AttributeError: 'NoneType' object has no attribute 'add_item'");
      }
      ghost var created := globus.requests;
      var i := 0;
      while i < |data|
        invariant 0 <= i <= |data|
        invariant t.items == data[..i]
        invariant globus.requests == created
        modifies t
      {
        t.AddItem(data[i].source, data[i].destination);
        assert data[..i + 1] == data[..i] + [data[i]];
        i := i + 1;
      }
      assert data[..i] == data;
      var taskId := globus.SendTransfer(t);
      r := Ok(taskId);
      if wait == 0 {
        return;
      }
      var status, polls := globus.WaitForTask(taskId, wait, PollInterval);
      assert globus.requests[..n + 2] == globus.requests[..n + 2][..n + 2];
    }

    /** `stage_in_files(files, wait)`. */
    method StageInFiles(files: seq<Value>, wait: int) returns (r: Outcome<Value>)
      requires Valid()
      modifies globus
      ensures InPairs(settings.inputPathPrefix, files).Raises? ==>
        r.Raises? && globus.requests == old(globus.requests)
      ensures InPairs(settings.inputPathPrefix, files).Ok? ==>
        StartedTransfer(globus, old(globus.requests), globus.requests,
          settings.globusRemoteEndpoint, settings.globusClusterEndpoint,
          InPairs(settings.inputPathPrefix, files).value, StageInLabel, wait, r)
    {
      var pairs := GetStageInData(files);
      if pairs.Raises? {
        return Raises(pairs.error);
      }
      r := Start(settings.globusRemoteEndpoint, settings.globusClusterEndpoint, pairs.value, StageInLabel, wait);
    }

    /** `stage_in_data(data, wait)`: no transfer at all when no file is named. */
    method StageInData(data: Value, wait: int) returns (r: Outcome<Value>)
      requires Valid()
      modifies globus
      ensures FilesOfData(data).Raises? ==> r.Raises? && globus.requests == old(globus.requests)
      ensures FilesOfData(data) == Ok([]) ==> r == Ok(Str("")) && globus.requests == old(globus.requests)
      ensures FilesOfData(data).Ok? && FilesOfData(data).value != [] ==>
        var files := FilesOfData(data).value;
        && (InPairs(settings.inputPathPrefix, files).Raises? ==>
              r.Raises? && globus.requests == old(globus.requests))
        && (InPairs(settings.inputPathPrefix, files).Ok? ==>
              StartedTransfer(globus, old(globus.requests), globus.requests,
                settings.globusRemoteEndpoint, settings.globusClusterEndpoint,
                InPairs(settings.inputPathPrefix, files).value, StageInLabel, wait, r))
    {
      var files := GetStageInFilesFromData(data);
      if files.Raises? {
        return Raises(files.error);
      }
      if files.value == [] {
        return Ok(Str(""));
      }
      r := StageInFiles(files.value, wait);
    }

    /** The stage-in pairs one proc_id contributes: none when its input
        payload does not exist. */
    function ProcIdPairs(procId: string): Outcome<seq<Item>>
    {
      match payloads(procId).input
      case None => Ok([])
      case Some(data) =>
        match FilesOfData(data)
        case Raises(e) => Raises(e)
        case Ok(files) => InPairs(settings.inputPathPrefix, files)
    }

    /** The stage-in pairs of the proc_ids, in proc_id order. */
    function ProcIdsPairs(procIds: seq<string>): Outcome<seq<Item>>
    {
      if procIds == [] then Ok([])
      else Then(ProcIdPairs(procIds[0]), ProcIdsPairs(procIds[1..]))
    }

    /** The pairs of two runs of proc_ids are the pairs of each, concatenated. */
    lemma {:induction false} ProcIdsPairsAppend(a: seq<string>, b: seq<string>)
      ensures ProcIdsPairs(a + b) == Then(ProcIdsPairs(a), ProcIdsPairs(b))
      decreases |a|
    {
      if a == [] {
        assert a + b == b;
        ThenNil(ProcIdsPairs(b));
      } else {
        assert (a + b)[0] == a[0];
        assert (a + b)[1..] == a[1..] + b;
        ProcIdsPairsAppend(a[1..], b);
        ThenAssoc(ProcIdPairs(a[0]), ProcIdsPairs(a[1..]), ProcIdsPairs(b));
      }
    }

    /** A proc_id without an input payload contributes nothing, wherever it stands. */
    lemma ProcIdsPairsSkipsMissing(a: seq<string>, procId: string, b: seq<string>)
      requires payloads(procId).input.None?
      ensures ProcIdsPairs(a + [procId] + b) == ProcIdsPairs(a + b)
    {
      ProcIdsPairsAppend(a + [procId], b);
      ProcIdsPairsAppend(a, [procId]);
      ProcIdsPairsAppend(a, b);
      assert [procId][1..] == [];
      assert ProcIdsPairs([procId]) == Then(Ok([]), Ok([]));
      ThenNil<Item>(Ok([]));
      ThenNil(ProcIdsPairs(a));
    }

    /** `stage_in_proc_ids(proc_ids, wait)`: one transfer for all of them. */
    method StageInProcIds(procIds: seq<string>, wait: int) returns (r: Outcome<Value>)
      requires Valid()
      modifies globus
      ensures ProcIdsPairs(procIds).Raises? ==> r.Raises? && globus.requests == old(globus.requests)
      ensures ProcIdsPairs(procIds).Ok? ==>
        StartedTransfer(globus, old(globus.requests), globus.requests,
          settings.globusRemoteEndpoint, settings.globusClusterEndpoint,
          ProcIdsPairs(procIds).value, StageInLabel, wait, r)
    {
      var pairs: seq<Item> := [];
      var i := 0;
      assert procIds[0..] == procIds;
      PrependNil(ProcIdsPairs(procIds));
      while i < |procIds|
        invariant 0 <= i <= |procIds|
        invariant ProcIdsPairs(procIds) == Prepend(pairs, ProcIdsPairs(procIds[i..]))
        invariant globus.requests == old(globus.requests)
      {
        assert procIds[i..][1..] == procIds[i + 1..];
        assert procIds[i..][0] == procIds[i];
        var payload := payloads(procIds[i]);
        if payload.input.Some? {
          var files := GetStageInFilesFromData(payload.input.value);
          if files.Raises? {
            return Raises(files.error);
          }
          var more := GetStageInData(files.value);
          if more.Raises? {
            return Raises(more.error);
          }
          PrependPrepend(pairs, more.value, ProcIdsPairs(procIds[i + 1..]));
          pairs := pairs + more.value;
        } else {
          PrependNil(ProcIdsPairs(procIds[i + 1..]));
        }
        i := i + 1;
      }
      assert procIds[i..] == [];
      assert pairs + [] == pairs;
      r := Start(settings.globusRemoteEndpoint, settings.globusClusterEndpoint, pairs, StageInLabel, wait);
    }

    /** `stage_out_proc_id(proc_id, wait)`. */
    method StageOutProcId(procId: string, wait: int) returns (r: Outcome<Value>)
      requires Valid()
      modifies globus
      ensures var source := StageOutSource(payloads(procId));
        source.None? || !Truthy(source.value) ==> r == Ok(Str("")) && globus.requests == old(globus.requests)
      ensures var source := StageOutSource(payloads(procId));
        source.Some? && Truthy(source.value) ==>
          var out := StageOutData(settings.outputPathPrefix, source.value);
          && (out.Raises? ==> r.Raises? && globus.requests == old(globus.requests))
          && (out.Ok? ==> StartedTransfer(globus, old(globus.requests), globus.requests,
                settings.globusClusterEndpoint, settings.globusRemoteEndpoint,
                out.value, "emop-stage-out-" + procId, wait, r))
    {
      var source := StageOutSource(payloads(procId));
      if source.None? {
        return Ok(Str(""));
      }
      var data := source.value;
      if !Truthy(data) {
        return Ok(Str(""));
      }
      var pairs := GetStageOutData(data);
      if pairs.Raises? {
        return Raises(pairs.error);
      }
      r := Start(settings.globusClusterEndpoint, settings.globusRemoteEndpoint, pairs.value, "emop-stage-out-" + procId, wait);
    }

    /** `_check_activation(endpoint, fail_on_warn)`. */
    method CheckActivation(endpoint: string, failOnWarn: bool) returns (r: Outcome<bool>)
      requires Valid()
      modifies globus`requests
      ensures globus.requests == old(globus.requests) + globus.ActivationRequests(|old(globus.requests)|, endpoint)
      ensures r == Acceptance(globus.ActivationResult(|old(globus.requests)|), settings.globusMinActivationTime, failOnWarn)
    {
      var expiresIn := globus.CheckActivated(endpoint);
      if expiresIn.Raises? {
        return Raises(expiresIn.error);
      }
      r := Ok(ActivationAcceptable(expiresIn.value, settings.globusMinActivationTime, failOnWarn));
    }

    /** The verdict on one endpoint and the requests checking it sends, the
        first having index m: a rejected endpoint is followed by an
        activation-URL query. */
    function OneCheck(m: nat, endpoint: string, failOnWarn: bool): (Outcome<bool>, seq<ApiRequest>)
      requires Valid()
    {
      var reqs := globus.ActivationRequests(m, endpoint);
      var verdict := Acceptance(globus.ActivationResult(m), settings.globusMinActivationTime, failOnWarn);
      if verdict.Ok? && !verdict.value then (verdict, reqs + [EndpointRequest(endpoint, "canonical_name,id")])
      else (verdict, reqs)
    }

    /** The verdict and the requests of checking `endpoints` one after the
        other, the first request having index n. */
    function EndpointsCheck(n: nat, endpoints: seq<string>, failOnWarn: bool): (Outcome<bool>, seq<ApiRequest>)
      requires Valid()
      decreases |endpoints|
    {
      if endpoints == [] then (Ok(true), [])
      else
        var one := OneCheck(n, endpoints[0], failOnWarn);
        if one.0.Raises? then one
        else
          var rest := EndpointsCheck(n + |one.1|, endpoints[1..], failOnWarn);
          (AndOutcome(one.0.value, rest.0), one.1 + rest.1)
    }

    /** Checking activation asks for endpoint documents and autoactivation,
        never for an activation URL. */
    lemma ActivationRequestsNoUrl(n: nat, endpoint: string)
      requires Valid()
      ensures NoActivateUrlRequest(globus.ActivationRequests(n, endpoint))
    {
    }

    /** One endpoint's check starts with its activation query, and its
        activation queries never ask for an activation URL. */
    lemma OneCheckShape(m: nat, endpoint: string, failOnWarn: bool)
      requires Valid()
      ensures var one := OneCheck(m, endpoint, failOnWarn);
        && |one.1| >= 1 && one.1[0] == EndpointRequest(endpoint, "activated,expires_in")
        && (one.0.Ok? ==> (one.0.value <==> NoActivateUrlRequest(one.1)))
    {
      var reqs := globus.ActivationRequests(m, endpoint);
      ActivationRequestsNoUrl(m, endpoint);
      var one := OneCheck(m, endpoint, failOnWarn);
      if one.0.Ok? && !one.0.value {
        var url := [EndpointRequest(endpoint, "canonical_name,id")];
        NoActivateUrlConcat(reqs, url);
        assert !NoActivateUrlRequest(url) by { assert IsActivateUrlRequest(url[0]); }
      }
    }

    /** When the check completes it has queried every endpoint. */
    lemma {:induction false} EndpointsCheckVisitsAll(n: nat, endpoints: seq<string>, failOnWarn: bool)
      requires Valid()
      ensures EndpointsCheck(n, endpoints, failOnWarn).0.Ok? ==>
        forall k :: 0 <= k < |endpoints| ==>
          EndpointRequest(endpoints[k], "activated,expires_in") in EndpointsCheck(n, endpoints, failOnWarn).1
      decreases |endpoints|
    {
      if endpoints != [] {
        var one := OneCheck(n, endpoints[0], failOnWarn);
        OneCheckShape(n, endpoints[0], failOnWarn);
        if one.0.Ok? {
          var m := n + |one.1|;
          EndpointsCheckVisitsAll(m, endpoints[1..], failOnWarn);
          var rest := EndpointsCheck(m, endpoints[1..], failOnWarn);
          var all := one.1 + rest.1;
          assert EndpointsCheck(n, endpoints, failOnWarn) == (AndOutcome(one.0.value, rest.0), all);
          if rest.0.Ok? {
            forall k | 0 <= k < |endpoints| ensures EndpointRequest(endpoints[k], "activated,expires_in") in all {
              if k == 0 {
                assert all[0] == one.1[0];
              } else {
                assert endpoints[k] == endpoints[1..][k - 1];
              }
            }
          }
        }
      }
    }

    /** The verdict is true exactly when no endpoint needed an activation URL. */
    lemma {:induction false} EndpointsCheckVerdict(n: nat, endpoints: seq<string>, failOnWarn: bool)
      requires Valid()
      ensures EndpointsCheck(n, endpoints, failOnWarn).0.Ok? ==>
        (EndpointsCheck(n, endpoints, failOnWarn).0.value <==> NoActivateUrlRequest(EndpointsCheck(n, endpoints, failOnWarn).1))
      decreases |endpoints|
    {
      if endpoints != [] {
        var one := OneCheck(n, endpoints[0], failOnWarn);
        OneCheckShape(n, endpoints[0], failOnWarn);
        if one.0.Ok? {
          var m := n + |one.1|;
          EndpointsCheckVerdict(m, endpoints[1..], failOnWarn);
          var rest := EndpointsCheck(m, endpoints[1..], failOnWarn);
          assert EndpointsCheck(n, endpoints, failOnWarn) == (AndOutcome(one.0.value, rest.0), one.1 + rest.1);
          NoActivateUrlConcat(one.1, rest.1);
        }
      }
    }

    /** The verdict and the requests of checking `first`, then `second`: the
        first exception ends the check, otherwise the verdict is the
        conjunction of the two. */
    function PairCheck(n: nat, first: string, second: string, failOnWarn: bool): (Outcome<bool>, seq<ApiRequest>)
      requires Valid()
    {
      var one := OneCheck(n, first, failOnWarn);
      PairOf(one, OneCheck(n + |one.1|, second, failOnWarn))
    }

    /** PairCheck unfolded once, with the first check's requests already counted. */
    lemma PairCheckIsPairOf(n: nat, first: string, second: string, failOnWarn: bool)
      requires Valid()
      ensures PairCheck(n, first, second, failOnWarn)
        == PairOf(OneCheck(n, first, failOnWarn), OneCheck(n + |OneCheck(n, first, failOnWarn).1|, second, failOnWarn))
    {
    }

    lemma PairCheckCases(n: nat, first: string, second: string, failOnWarn: bool)
      requires Valid()
      ensures var one := OneCheck(n, first, failOnWarn);
        var two := OneCheck(n + |one.1|, second, failOnWarn);
        var whole := PairCheck(n, first, second, failOnWarn);
        && (one.0.Raises? ==> whole == one)
        && (one.0.Ok? && two.0.Raises? ==> whole == (two.0, one.1 + two.1))
        && (one.0.Ok? && two.0.Ok? ==> whole == (Ok(one.0.value && two.0.value), one.1 + two.1))
    {
    }

    /** The pair check is the general check on a two-element list. */
    lemma EndpointPairCheck(n: nat, first: string, second: string, failOnWarn: bool)
      requires Valid()
      ensures EndpointsCheck(n, [first, second], failOnWarn) == PairCheck(n, first, second, failOnWarn)
    {
      var one := OneCheck(n, first, failOnWarn);
      var m := n + |one.1|;
      var two := OneCheck(m, second, failOnWarn);
      assert [first, second][0] == first && [first, second][1..] == [second];
      var rest := EndpointsCheck(m, [second], failOnWarn);
      var whole := EndpointsCheck(n, [first, second], failOnWarn);
      assert whole == if one.0.Raises? then one else (AndOutcome(one.0.value, rest.0), one.1 + rest.1);
      EndpointsCheckSingle(m, second, failOnWarn);
      PairCheckCases(n, first, second, failOnWarn);
      if one.0.Ok? {
        if two.0.Raises? {
          assert rest == two;
          assert whole == (two.0, one.1 + two.1);
        } else {
          assert rest == (Ok(two.0.value), two.1);
          assert whole == (Ok(one.0.value && two.0.value), one.1 + two.1);
        }
      }
    }

    /** The general check on a one-element list is that endpoint's check. */
    lemma EndpointsCheckSingle(m: nat, endpoint: string, failOnWarn: bool)
      requires Valid()
      ensures var one := OneCheck(m, endpoint, failOnWarn);
        EndpointsCheck(m, [endpoint], failOnWarn) == (if one.0.Raises? then one else (Ok(one.0.value), one.1))
    {
      var one := OneCheck(m, endpoint, failOnWarn);
      assert [endpoint][1..] == [];
      assert EndpointsCheck(m + |one.1|, [], failOnWarn) == (Ok(true), []);
      assert one.1 + [] == one.1;
    }

    /** `_check_activation` on one endpoint, then the activation-URL query
        the loop of `check_endpoints` logs when the endpoint is rejected. */
    method CheckOneEndpoint(endpoint: string, failOnWarn: bool, ghost expected: (Outcome<bool>, seq<ApiRequest>))
        returns (accepted: Outcome<bool>)
      requires Valid() && expected == OneCheck(|globus.requests|, endpoint, failOnWarn)
      modifies globus`requests
      ensures globus.requests == old(globus.requests) + expected.1
      ensures accepted == expected.0
    {
      accepted := CheckActivation(endpoint, failOnWarn);
      if accepted.Ok? && !accepted.value {
        var url := globus.GetActivateUrl(endpoint);
      }
    }

    /** `check_endpoints(fail_on_warn)`: checks the cluster endpoint, then the
        remote one, whatever the first verdict, and asks for the activation URL
        of each endpoint it rejects. */
    method CheckEndpoints(failOnWarn: bool) returns (r: Outcome<bool>)
      requires Valid()
      modifies globus`requests
      ensures |globus.requests| >= |old(globus.requests)|
      ensures globus.requests[..|old(globus.requests)|] == old(globus.requests)
      ensures (r, globus.requests[|old(globus.requests)|..])
        == PairCheck(|old(globus.requests)|, settings.globusClusterEndpoint, settings.globusRemoteEndpoint, failOnWarn)
    {
      ghost var start := globus.requests;
      ghost var n := |start|;
      var endpoints := [settings.globusClusterEndpoint, settings.globusRemoteEndpoint];
      // The verdicts and requests of the two iterations.
      ghost var one := OneCheck(n, settings.globusClusterEndpoint, failOnWarn);
      ghost var m := n + |one.1|;
      ghost var two := OneCheck(m, settings.globusRemoteEndpoint, failOnWarn);
      ghost var whole := PairOf(one, two);
      assert endpoints[0] == settings.globusClusterEndpoint && endpoints[1] == settings.globusRemoteEndpoint;
      var valid := true;
      var i := 0;
      while i < |endpoints|
        invariant 0 <= i <= 2
        invariant i == 0 ==> valid && globus.requests == start
        invariant i == 1 ==> one.0.Ok? && valid == one.0.value && globus.requests == start + one.1
        invariant i == 2 ==>
          one.0.Ok? && two.0.Ok? && valid == (one.0.value && two.0.value)
          && globus.requests == (start + one.1) + two.1
      {
        ghost var before := globus.requests;
        ghost var expected := if i == 0 then one else two;
        assert i == 0 ==> |before| == n;
        assert i == 1 ==> |before| == m;
        var activated := CheckOneEndpoint(endpoints[i], failOnWarn, expected);
        if activated.Raises? {
          if i == 0 {
            SuffixAfter(start, one.1, []);
            assert whole == one;
          } else {
            SuffixAfter(start, one.1, two.1);
            assert whole == (two.0, one.1 + two.1);
          }
          PairCheckIsPairOf(n, settings.globusClusterEndpoint, settings.globusRemoteEndpoint, failOnWarn);
          return activated;
        }
        if !activated.value {
          valid := false;
        }
        i := i + 1;
      }
      SuffixAfter(start, one.1, two.1);
      r := Ok(valid);
      assert whole == (r, globus.requests[n..]);
      PairCheckIsPairOf(n, settings.globusClusterEndpoint, settings.globusRemoteEndpoint, failOnWarn);
    }
  }
}
