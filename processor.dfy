/**
 * `PlaceholderProcessor` (scripts/placeholder_processor.py): every VPC of the
 * input is flattened into a context and, once per subnet index, copied with
 * its placeholders resolved. The keys of the VPC's `template` dictionary are
 * merged into the copy, and each copy gets `vlan_id = index + 1`.
 */
module Processor {
  import opened Wrappers
  import opened PyText
  import opened PyValues
  import opened PlaceholderFlatten
  import opened PlaceholderResolve

  // ---------------------------------------------------------------------------
  // _process_nested, _process_dict, _process_list

  /** `_process_nested`: dictionaries and lists are walked, anything else becomes `str(item)` resolved. */
  function ProcessNested(v: Value, ctx: Context, index: nat): Result<Value, Failure>
    decreases v
  {
    match v
    case VMap(es) =>
      (match ProcessDict(es, ctx, index)
       case Ok(r) => Ok(VMap(r))
       case Err(e) => Err(e))
    case VList(xs) =>
      (match ProcessList(xs, ctx, index)
       case Ok(r) => Ok(VList(r))
       case Err(e) => Err(e))
    case _ => Resolve(VStr(Str(v)), ctx, index)
  }

  /**
   * `_process_dict`: the comprehension `{k: _process_nested(v) for k, v in data.items()}`.
   * The keys of `data` are distinct, so each entry is processed in its place.
   */
  function ProcessDict(d: Dict, ctx: Context, index: nat): Result<Dict, Failure>
    decreases d
  {
    if d == [] then Ok([])
    else
      var n := |d| - 1;
      match ProcessDict(d[..n], ctx, index)
      case Err(e) => Err(e)
      case Ok(r) =>
        match ProcessNested(d[n].val, ctx, index)
        case Err(e) => Err(e)
        case Ok(w) => Ok(r + [Entry(d[n].key, w)])
  }

  /** `_process_list`: the comprehension `[_process_nested(item) for item in lst]`. */
  function ProcessList(xs: seq<Value>, ctx: Context, index: nat): Result<seq<Value>, Failure>
    decreases xs
  {
    if xs == [] then Ok([])
    else
      var n := |xs| - 1;
      match ProcessList(xs[..n], ctx, index)
      case Err(e) => Err(e)
      case Ok(r) =>
        match ProcessNested(xs[n], ctx, index)
        case Err(e) => Err(e)
        case Ok(w) => Ok(r + [w])
  }

  /** A processed dictionary has the same keys in the same order, each value processed on its own. */
  lemma ProcessDictEntries(d: Dict, ctx: Context, index: nat)
    requires ProcessDict(d, ctx, index).Ok?
    ensures |ProcessDict(d, ctx, index).value| == |d|
    ensures forall i :: 0 <= i < |d| ==>
      && ProcessDict(d, ctx, index).value[i].key == d[i].key
      && ProcessNested(d[i].val, ctx, index) == Ok(ProcessDict(d, ctx, index).value[i].val)
  {
    ProcessDictLength(d, ctx, index);
    forall i | 0 <= i < |d|
      ensures && ProcessDict(d, ctx, index).value[i].key == d[i].key
              && ProcessNested(d[i].val, ctx, index) == Ok(ProcessDict(d, ctx, index).value[i].val)
    {
      ProcessDictEntryAt(d, ctx, index, i);
    }
  }

  lemma {:induction false} ProcessDictLength(d: Dict, ctx: Context, index: nat)
    requires ProcessDict(d, ctx, index).Ok?
    ensures |ProcessDict(d, ctx, index).value| == |d|
    decreases |d|
  {
    if d != [] {
      ProcessDictLength(d[..|d| - 1], ctx, index);
    }
  }

  lemma {:induction false} ProcessDictEntryAt(d: Dict, ctx: Context, index: nat, i: nat)
    requires ProcessDict(d, ctx, index).Ok? && i < |d|
    ensures |ProcessDict(d, ctx, index).value| == |d|
    ensures ProcessDict(d, ctx, index).value[i].key == d[i].key
    ensures ProcessNested(d[i].val, ctx, index) == Ok(ProcessDict(d, ctx, index).value[i].val)
    decreases |d|
  {
    var n := |d| - 1;
    ProcessDictLength(d, ctx, index);
    ProcessDictLength(d[..n], ctx, index);
    if i < n {
      ProcessDictEntryAt(d[..n], ctx, index, i);
      assert d[..n][i] == d[i];
    }
  }

  /** Hence it has the same set of keys. */
  lemma ProcessDictKeys(d: Dict, ctx: Context, index: nat)
    requires ProcessDict(d, ctx, index).Ok?
    ensures Keys(ProcessDict(d, ctx, index).value) == Keys(d)
  {
    ProcessDictEntries(d, ctx, index);
    var r := ProcessDict(d, ctx, index).value;
    assert forall k :: k in Keys(d) ==> k in Keys(r) by {
      forall k | k in Keys(d) ensures k in Keys(r) {
        var i :| 0 <= i < |d| && d[i].key == k;
        assert r[i].key == k;
      }
    }
  }

  /** Processing a dictionary raises exactly when processing one of its values raises. */
  lemma {:induction false} ProcessDictOk(d: Dict, ctx: Context, index: nat)
    ensures ProcessDict(d, ctx, index).Ok? <==> forall i :: 0 <= i < |d| ==> ProcessNested(d[i].val, ctx, index).Ok?
  {
    if ProcessDict(d, ctx, index).Ok? {
      ProcessDictOkEach(d, ctx, index);
    } else {
      var i := ProcessDictFirstErr(d, ctx, index);
    }
  }

  lemma ProcessDictOkEach(d: Dict, ctx: Context, index: nat)
    requires ProcessDict(d, ctx, index).Ok?
    ensures forall i :: 0 <= i < |d| ==> ProcessNested(d[i].val, ctx, index).Ok?
  {
    forall i | 0 <= i < |d| ensures ProcessNested(d[i].val, ctx, index).Ok? {
      ProcessDictOkAt(d, ctx, index, i);
    }
  }

  lemma {:induction false} ProcessDictOkAt(d: Dict, ctx: Context, index: nat, i: nat)
    requires ProcessDict(d, ctx, index).Ok? && i < |d|
    ensures ProcessNested(d[i].val, ctx, index).Ok?
    decreases |d|
  {
    var n := |d| - 1;
    ProcessDictStepOk(d, ctx, index);
    if i < n {
      ProcessDictOkAt(d[..n], ctx, index, i);
      assert d[..n][i] == d[i];
    }
  }

  lemma {:induction false} ProcessDictFirstErr(d: Dict, ctx: Context, index: nat) returns (i: nat)
    requires !ProcessDict(d, ctx, index).Ok?
    ensures i < |d| && !ProcessNested(d[i].val, ctx, index).Ok?
    decreases |d|
  {
    var n := |d| - 1;
    ProcessDictStepOk(d, ctx, index);
    if ProcessDict(d[..n], ctx, index).Ok? {
      i := n;
    } else {
      i := ProcessDictFirstErr(d[..n], ctx, index);
      assert d[..n][i] == d[i];
    }
  }

  lemma ProcessDictStepOk(d: Dict, ctx: Context, index: nat)
    requires d != []
    ensures ProcessDict(d, ctx, index).Ok? <==>
              ProcessDict(d[..|d| - 1], ctx, index).Ok? && ProcessNested(d[|d| - 1].val, ctx, index).Ok?
  {
  }

  /** A processed list has the same length, each item processed on its own. */
  lemma ProcessListItems(xs: seq<Value>, ctx: Context, index: nat)
    requires ProcessList(xs, ctx, index).Ok?
    ensures |ProcessList(xs, ctx, index).value| == |xs|
    ensures forall i :: 0 <= i < |xs| ==> ProcessNested(xs[i], ctx, index) == Ok(ProcessList(xs, ctx, index).value[i])
  {
    ProcessListLength(xs, ctx, index);
    forall i | 0 <= i < |xs| ensures ProcessNested(xs[i], ctx, index) == Ok(ProcessList(xs, ctx, index).value[i]) {
      ProcessListItemAt(xs, ctx, index, i);
    }
  }

  lemma {:induction false} ProcessListLength(xs: seq<Value>, ctx: Context, index: nat)
    requires ProcessList(xs, ctx, index).Ok?
    ensures |ProcessList(xs, ctx, index).value| == |xs|
    decreases |xs|
  {
    if xs != [] {
      ProcessListLength(xs[..|xs| - 1], ctx, index);
    }
  }

  lemma {:induction false} ProcessListItemAt(xs: seq<Value>, ctx: Context, index: nat, i: nat)
    requires ProcessList(xs, ctx, index).Ok? && i < |xs|
    ensures |ProcessList(xs, ctx, index).value| == |xs|
    ensures ProcessNested(xs[i], ctx, index) == Ok(ProcessList(xs, ctx, index).value[i])
    decreases |xs|
  {
    var n := |xs| - 1;
    ProcessListLength(xs, ctx, index);
    ProcessListLength(xs[..n], ctx, index);
    if i < n {
      ProcessListItemAt(xs[..n], ctx, index, i);
      assert xs[..n][i] == xs[i];
    }
  }

  /** Processing a list raises exactly when processing one of its items raises. */
  lemma {:induction false} ProcessListOk(xs: seq<Value>, ctx: Context, index: nat)
    ensures ProcessList(xs, ctx, index).Ok? <==> forall i :: 0 <= i < |xs| ==> ProcessNested(xs[i], ctx, index).Ok?
  {
    if ProcessList(xs, ctx, index).Ok? {
      ProcessListOkEach(xs, ctx, index);
    } else {
      var i := ProcessListFirstErr(xs, ctx, index);
    }
  }

  lemma ProcessListOkEach(xs: seq<Value>, ctx: Context, index: nat)
    requires ProcessList(xs, ctx, index).Ok?
    ensures forall i :: 0 <= i < |xs| ==> ProcessNested(xs[i], ctx, index).Ok?
  {
    forall i | 0 <= i < |xs| ensures ProcessNested(xs[i], ctx, index).Ok? {
      ProcessListOkAt(xs, ctx, index, i);
    }
  }

  lemma {:induction false} ProcessListOkAt(xs: seq<Value>, ctx: Context, index: nat, i: nat)
    requires ProcessList(xs, ctx, index).Ok? && i < |xs|
    ensures ProcessNested(xs[i], ctx, index).Ok?
    decreases |xs|
  {
    var n := |xs| - 1;
    ProcessListStepOk(xs, ctx, index);
    if i < n {
      ProcessListOkAt(xs[..n], ctx, index, i);
      assert xs[..n][i] == xs[i];
    }
  }

  lemma {:induction false} ProcessListFirstErr(xs: seq<Value>, ctx: Context, index: nat) returns (i: nat)
    requires !ProcessList(xs, ctx, index).Ok?
    ensures i < |xs| && !ProcessNested(xs[i], ctx, index).Ok?
    decreases |xs|
  {
    var n := |xs| - 1;
    ProcessListStepOk(xs, ctx, index);
    if ProcessList(xs[..n], ctx, index).Ok? {
      i := n;
    } else {
      i := ProcessListFirstErr(xs[..n], ctx, index);
      assert xs[..n][i] == xs[i];
    }
  }

  lemma ProcessListStepOk(xs: seq<Value>, ctx: Context, index: nat)
    requires xs != []
    ensures ProcessList(xs, ctx, index).Ok? <==>
              ProcessList(xs[..|xs| - 1], ctx, index).Ok? && ProcessNested(xs[|xs| - 1], ctx, index).Ok?
  {
  }

  /**
   * The shape of a processed value: a dictionary keeps its keys, a list its
   * length, and a scalar becomes the string `str(v)` with its placeholders resolved.
   */
  lemma ProcessNestedShape(v: Value, ctx: Context, index: nat)
    requires ProcessNested(v, ctx, index).Ok?
    ensures v.VMap? ==>
              && ProcessNested(v, ctx, index).value.VMap?
              && Keys(ProcessNested(v, ctx, index).value.entries) == Keys(v.entries)
    ensures v.VList? ==>
              && ProcessNested(v, ctx, index).value.VList?
              && |ProcessNested(v, ctx, index).value.items| == |v.items|
    ensures IsScalar(v) ==>
              && ProcessNested(v, ctx, index).value.VStr?
              && ResolveText(Str(v), ctx, index) == Ok(ProcessNested(v, ctx, index).value.s)
  {
    match v
    case VMap(es) => ProcessDictKeys(es, ctx, index);
    case VList(xs) => ProcessListItems(xs, ctx, index);
    case _ =>
  }

  /** With no empty list in the context, processing a value never raises. */
  lemma ProcessNestedTotal(v: Value, ctx: Context, index: nat)
    requires NonEmptyLists(ctx)
    ensures ProcessNested(v, ctx, index).Ok?
    decreases v
  {
    match v
    case VMap(es) =>
      forall i | 0 <= i < |es| ensures ProcessNested(es[i].val, ctx, index).Ok? {
        ProcessNestedTotal(es[i].val, ctx, index);
      }
      ProcessDictOk(es, ctx, index);
    case VList(xs) =>
      forall i | 0 <= i < |xs| ensures ProcessNested(xs[i], ctx, index).Ok? {
        ProcessNestedTotal(xs[i], ctx, index);
      }
      ProcessListOk(xs, ctx, index);
    case _ =>
      ResolveTotal(VStr(Str(v)), ctx, index);
  }

  // ---------------------------------------------------------------------------
  // _resolve_template

  /** The value `_resolve_template` stores for a template item: resolved, or the item itself when resolution raises. */
  function TemplateValue(v: Value, ctx: Context, index: nat): Value {
    match Resolve(v, ctx, index)
    case Ok(w) => w
    case Err(_) => v
  }

  /** The dictionary `_resolve_template` returns. */
  function ResolvedTemplate(t: Dict, ctx: Context, index: nat): Dict
    decreases |t|
  {
    if t == [] then []
    else
      var n := |t| - 1;
      Put(ResolvedTemplate(t[..n], ctx, index), t[n].key, TemplateValue(t[n].val, ctx, index))
  }

  /**
   * The resolved template has the template's keys, each once, and each with
   * its value resolved (or kept, when resolving it raised).
   */
  lemma {:induction false} ResolvedTemplateEntries(t: Dict, ctx: Context, index: nat)
    ensures Keys(ResolvedTemplate(t, ctx, index)) == Keys(t)
    ensures forall k :: k in Keys(t) ==>
      Get(ResolvedTemplate(t, ctx, index), k) == Some(TemplateValue(Get(t, k).value, ctx, index))
    ensures DistinctKeys(ResolvedTemplate(t, ctx, index))
    decreases |t|
  {
    if t != [] {
      var n := |t| - 1;
      var prev := ResolvedTemplate(t[..n], ctx, index);
      var w := TemplateValue(t[n].val, ctx, index);
      ResolvedTemplateEntries(t[..n], ctx, index);
      KeysSnoc(t);
      KeysPut(prev, t[n].key, w);
      DistinctPut(prev, t[n].key, w);
      forall k | k in Keys(t)
        ensures Get(Put(prev, t[n].key, w), k) == Some(TemplateValue(Get(t, k).value, ctx, index))
      {
        if k == t[n].key {
          GetPut(prev, k, w);
        } else {
          GetPutOther(prev, t[n].key, w, k);
        }
      }
    }
  }

  // ---------------------------------------------------------------------------
  // _process_vpc

  /** Every `template` entry of the VPC is a dictionary. */
  predicate TemplatesAreDicts(vpc: Dict) {
    forall i :: 0 <= i < |vpc| && vpc[i].key == "template" ==> vpc[i].val.VMap?
  }

  /** One iteration of the loop in `_process_vpc`, applied to `processed_vpc`. */
  function ProcessEntry(acc: Dict, e: Entry, ctx: Context, index: nat): Result<Dict, Failure> {
    if e.key == "template" then
      if e.val.VMap? then Ok(PutAll(acc, ResolvedTemplate(e.val.entries, ctx, index)))
      else Err(AttributeError)
    else
      match ProcessNested(e.val, ctx, index)
      case Ok(w) => Ok(Put(acc, e.key, w))
      case Err(x) => Err(x)
  }

  /** `processed_vpc` after the loop of `_process_vpc` has visited all of `vpc`. */
  function ProcessEntries(vpc: Dict, ctx: Context, index: nat): Result<Dict, Failure>
    decreases |vpc|
  {
    if vpc == [] then Ok([])
    else
      var n := |vpc| - 1;
      match ProcessEntries(vpc[..n], ctx, index)
      case Err(e) => Err(e)
      case Ok(acc) => ProcessEntry(acc, vpc[n], ctx, index)
  }

  /** The dictionary `_process_vpc` returns: the processed entries with `vlan_id = index + 1`. */
  function ProcessedVpc(vpc: Dict, ctx: Context, index: nat): Result<Dict, Failure> {
    match ProcessEntries(vpc, ctx, index)
    case Ok(acc) => Ok(Put(acc, "vlan_id", VInt(index + 1)))
    case Err(e) => Err(e)
  }

  /** Every record `_process_vpc` returns carries `vlan_id = index + 1`, whatever the VPC and its template hold. */
  lemma ProcessedVpcVlanId(vpc: Dict, ctx: Context, index: nat)
    requires ProcessedVpc(vpc, ctx, index).Ok?
    ensures Get(ProcessedVpc(vpc, ctx, index).value, "vlan_id") == Some(VInt(index + 1))
  {
    GetPut(ProcessEntries(vpc, ctx, index).value, "vlan_id", VInt(index + 1));
  }

  lemma ProcessEntriesNext(vpc: Dict, i: nat, acc: Dict, ctx: Context, index: nat)
    requires i < |vpc| && ProcessEntries(vpc[..i], ctx, index) == Ok(acc)
    ensures ProcessEntries(vpc[..i + 1], ctx, index) == ProcessEntry(acc, vpc[i], ctx, index)
  {
    assert vpc[..i + 1][..i] == vpc[..i];
  }

  lemma ProcessedVpcErr(vpc: Dict, m: nat, ctx: Context, index: nat)
    requires m <= |vpc| && ProcessEntries(vpc[..m], ctx, index).Err?
    ensures ProcessedVpc(vpc, ctx, index) == Err(ProcessEntries(vpc[..m], ctx, index).error)
  {
    ProcessEntriesErrPersists(vpc, m, ctx, index);
  }

  lemma ProcessedVpcDone(vpc: Dict, acc: Dict, ctx: Context, index: nat)
    requires ProcessEntries(vpc[..|vpc|], ctx, index) == Ok(acc)
    ensures ProcessedVpc(vpc, ctx, index) == Ok(Put(acc, "vlan_id", VInt(index + 1)))
  {
    assert vpc[..|vpc|] == vpc;
  }

  /** Once an iteration raises, `_process_vpc` raises that exception. */
  lemma {:induction false} ProcessEntriesErrPersists(vpc: Dict, m: nat, ctx: Context, index: nat)
    requires m <= |vpc| && ProcessEntries(vpc[..m], ctx, index).Err?
    ensures ProcessEntries(vpc, ctx, index) == ProcessEntries(vpc[..m], ctx, index)
    decreases |vpc| - m
  {
    if m < |vpc| {
      assert vpc[..m + 1][..m] == vpc[..m];
      ProcessEntriesErrPersists(vpc, m + 1, ctx, index);
    } else {
      assert vpc[..m] == vpc;
    }
  }

  /**
   * With no empty list in the context, `_process_vpc` raises exactly when a
   * `template` entry is not a dictionary, and then raises `AttributeError`.
   */
  lemma {:induction false} ProcessEntriesOk(vpc: Dict, ctx: Context, index: nat)
    requires NonEmptyLists(ctx)
    ensures ProcessEntries(vpc, ctx, index).Ok? <==> TemplatesAreDicts(vpc)
    ensures ProcessEntries(vpc, ctx, index).Err? ==> ProcessEntries(vpc, ctx, index).error == AttributeError
    decreases |vpc|
  {
    if vpc != [] {
      var n := |vpc| - 1;
      ProcessEntriesOk(vpc[..n], ctx, index);
      ProcessEntriesStep(vpc, ctx, index);
      if ProcessEntries(vpc[..n], ctx, index).Ok? {
        ProcessEntryOk(ProcessEntries(vpc[..n], ctx, index).value, vpc[n], ctx, index);
      }
      TemplatesSnoc(vpc);
    }
  }

  lemma TemplatesSnoc(vpc: Dict)
    requires vpc != []
    ensures TemplatesAreDicts(vpc) <==>
              TemplatesAreDicts(vpc[..|vpc| - 1]) && (vpc[|vpc| - 1].key == "template" ==> vpc[|vpc| - 1].val.VMap?)
  {
    assert forall i :: 0 <= i < |vpc| - 1 ==> vpc[..|vpc| - 1][i] == vpc[i];
  }

  lemma ProcessEntriesStep(vpc: Dict, ctx: Context, index: nat)
    requires vpc != []
    ensures ProcessEntries(vpc, ctx, index) ==
              match ProcessEntries(vpc[..|vpc| - 1], ctx, index)
              case Err(e) => Err(e)
              case Ok(acc) => ProcessEntry(acc, vpc[|vpc| - 1], ctx, index)
  {
  }

  lemma ProcessEntryOk(acc: Dict, e: Entry, ctx: Context, index: nat)
    requires NonEmptyLists(ctx)
    ensures ProcessEntry(acc, e, ctx, index).Ok? <==> (e.key == "template" ==> e.val.VMap?)
    ensures ProcessEntry(acc, e, ctx, index).Err? ==> ProcessEntry(acc, e, ctx, index).error == AttributeError
  {
    ProcessNestedTotal(e.val, ctx, index);
  }

  lemma ProcessedVpcOk(vpc: Dict, ctx: Context, index: nat)
    requires NonEmptyLists(ctx)
    ensures ProcessedVpc(vpc, ctx, index).Ok? <==> TemplatesAreDicts(vpc)
    ensures ProcessedVpc(vpc, ctx, index).Err? ==> ProcessedVpc(vpc, ctx, index).error == AttributeError
  {
    ProcessEntriesOk(vpc, ctx, index);
  }

  /** `k` is not written by any template of the VPC. */
  predicate NotFromTemplate(vpc: Dict, k: string) {
    && k != "template"
    && forall i :: 0 <= i < |vpc| && vpc[i].key == "template" && vpc[i].val.VMap? ==> k !in Keys(vpc[i].val.entries)
  }

  lemma {:induction false} ProcessEntriesFields(vpc: Dict, ctx: Context, index: nat, k: string)
    requires ProcessEntries(vpc, ctx, index).Ok? && NotFromTemplate(vpc, k)
    ensures k in Keys(ProcessEntries(vpc, ctx, index).value) <==> k in Keys(vpc)
    ensures k in Keys(vpc) ==>
      ProcessNested(Get(vpc, k).value, ctx, index) == Ok(Get(ProcessEntries(vpc, ctx, index).value, k).value)
    decreases |vpc|
  {
    if vpc != [] {
      var n := |vpc| - 1;
      ProcessEntriesStep(vpc, ctx, index);
      NotFromTemplatePrefix(vpc, k);
      ProcessEntriesFields(vpc[..n], ctx, index, k);
      KeysSnoc(vpc);
      var acc := ProcessEntries(vpc[..n], ctx, index).value;
      var e := vpc[n];
      if e.key == "template" {
        ResolvedTemplateEntries(e.val.entries, ctx, index);
        GetPutAll(acc, ResolvedTemplate(e.val.entries, ctx, index), k);
      } else if e.key == k {
        GetPut(acc, k, ProcessNested(e.val, ctx, index).value);
      } else {
        GetPutOther(acc, e.key, ProcessNested(e.val, ctx, index).value, k);
      }
    }
  }

  lemma NotFromTemplatePrefix(vpc: Dict, k: string)
    requires vpc != [] && NotFromTemplate(vpc, k)
    ensures NotFromTemplate(vpc[..|vpc| - 1], k)
  {
    assert forall i :: 0 <= i < |vpc| - 1 ==> vpc[..|vpc| - 1][i] == vpc[i];
  }

  /**
   * A key of the VPC that no template writes is copied with its value
   * processed (`_process_dict`, `_process_list`, or `str()` resolved).
   */
  lemma ProcessedVpcField(vpc: Dict, ctx: Context, index: nat, k: string)
    requires ProcessedVpc(vpc, ctx, index).Ok? && NotFromTemplate(vpc, k) && k != "vlan_id"
    ensures k in Keys(ProcessedVpc(vpc, ctx, index).value) <==> k in Keys(vpc)
    ensures k in Keys(vpc) ==>
      ProcessNested(Get(vpc, k).value, ctx, index) == Ok(Get(ProcessedVpc(vpc, ctx, index).value, k).value)
  {
    ProcessEntriesFields(vpc, ctx, index, k);
    GetPutOther(ProcessEntries(vpc, ctx, index).value, "vlan_id", VInt(index + 1), k);
  }

  /** No template of the VPC holds a `template` key of its own. */
  predicate TemplatesWithoutTemplateKey(vpc: Dict) {
    forall i :: 0 <= i < |vpc| && vpc[i].key == "template" && vpc[i].val.VMap? ==> "template" !in Keys(vpc[i].val.entries)
  }

  /** The `template` entry is merged, not copied: `template` itself is no key of the record. */
  lemma ProcessedVpcNoTemplateKey(vpc: Dict, ctx: Context, index: nat)
    requires ProcessedVpc(vpc, ctx, index).Ok? && TemplatesWithoutTemplateKey(vpc)
    ensures "template" !in Keys(ProcessedVpc(vpc, ctx, index).value)
  {
    ProcessEntriesNoTemplateKey(vpc, ctx, index);
    KeysPut(ProcessEntries(vpc, ctx, index).value, "vlan_id", VInt(index + 1));
  }

  lemma {:induction false} ProcessEntriesNoTemplateKey(vpc: Dict, ctx: Context, index: nat)
    requires ProcessEntries(vpc, ctx, index).Ok? && TemplatesWithoutTemplateKey(vpc)
    ensures "template" !in Keys(ProcessEntries(vpc, ctx, index).value)
    decreases |vpc|
  {
    if vpc != [] {
      var n := |vpc| - 1;
      ProcessEntriesStep(vpc, ctx, index);
      assert forall i :: 0 <= i < n ==> vpc[..n][i] == vpc[i];
      ProcessEntriesNoTemplateKey(vpc[..n], ctx, index);
      var acc := ProcessEntries(vpc[..n], ctx, index).value;
      if vpc[n].key == "template" {
        var t := vpc[n].val.entries;
        ResolvedTemplateEntries(t, ctx, index);
        GetPutAll(acc, ResolvedTemplate(t, ctx, index), "template");
      } else {
        KeysPut(acc, vpc[n].key, ProcessNested(vpc[n].val, ctx, index).value);
      }
    }
  }

  lemma {:induction false} ProcessEntriesTemplate(vpc: Dict, t: Dict, ctx: Context, index: nat, k: string)
    requires ProcessEntries(vpc, ctx, index).Ok?
    requires forall i :: 0 <= i < |vpc| && vpc[i].key == "template" ==> vpc[i].val == VMap(t)
    requires k in Keys(t) && k !in Keys(vpc)
    ensures Get(ProcessEntries(vpc, ctx, index).value, k)
      == if "template" in Keys(vpc) then Some(TemplateValue(Get(t, k).value, ctx, index)) else None
    decreases |vpc|
  {
    if vpc != [] {
      var n := |vpc| - 1;
      ProcessEntriesStep(vpc, ctx, index);
      assert forall i :: 0 <= i < n ==> vpc[..n][i] == vpc[i];
      KeysSnoc(vpc);
      ProcessEntriesTemplate(vpc[..n], t, ctx, index, k);
      var acc := ProcessEntries(vpc[..n], ctx, index).value;
      if vpc[n].key == "template" {
        ResolvedTemplateEntries(t, ctx, index);
        GetPutAll(acc, ResolvedTemplate(t, ctx, index), k);
      } else {
        GetPutOther(acc, vpc[n].key, ProcessNested(vpc[n].val, ctx, index).value, k);
      }
    }
  }

  /**
   * A template key that is not also a key of the VPC gets the resolved
   * template value (or the template value itself when resolution raised).
   */
  lemma ProcessedVpcTemplateKey(vpc: Dict, t: Dict, ctx: Context, index: nat, k: string)
    requires DistinctKeys(vpc) && Get(vpc, "template") == Some(VMap(t))
    requires ProcessedVpc(vpc, ctx, index).Ok?
    requires k in Keys(t) && k !in Keys(vpc) && k != "vlan_id"
    ensures Get(ProcessedVpc(vpc, ctx, index).value, k) == Some(TemplateValue(Get(t, k).value, ctx, index))
  {
    var j :| 0 <= j < |vpc| && vpc[j] == Entry("template", VMap(t));
    assert forall i :: 0 <= i < |vpc| && vpc[i].key == "template" ==> i == j;
    ProcessEntriesTemplate(vpc, t, ctx, index, k);
    GetPutOther(ProcessEntries(vpc, ctx, index).value, "vlan_id", VInt(index + 1), k);
  }

  // ---------------------------------------------------------------------------
  // _create_context and process

  /** The context `_create_context` builds: the flattened VPC with `count_index = 0`. */
  function ContextOf(vpc: Dict): (ctx: Context)
    ensures forall k :: k in ctx ==> IsContextValue(ctx[k])
    ensures NonEmptyLists(ctx)
    ensures "count_index" in ctx && ctx["count_index"] == VInt(0)
  {
    FlattenEntriesValues(vpc, "");
    FlattenEntries(vpc, "")["count_index" := VInt(0)]
  }

  function Prepend(a: seq<Dict>, r: Result<seq<Dict>, Failure>): Result<seq<Dict>, Failure> {
    match r
    case Ok(b) => Ok(a + b)
    case Err(e) => Err(e)
  }

  /** The results of two stages run one after the other; the first exception wins. */
  function Chain(r1: Result<seq<Dict>, Failure>, r2: Result<seq<Dict>, Failure>): Result<seq<Dict>, Failure> {
    match r1
    case Err(e) => Err(e)
    case Ok(a) => Prepend(a, r2)
  }

  /** The records of `for index in range(n)` from `index = i` on, `count_index` set to `index + 1`. */
  function Runs(vpc: Dict, ctx: Context, i: nat, n: int): Result<seq<Dict>, Failure>
    decreases n - i
  {
    if i >= n then Ok([])
    else
      match Record(vpc, ctx, i)
      case Err(e) => Err(e)
      case Ok(p) => Prepend([p], Runs(vpc, ctx, i + 1, n))
  }

  /** The records of the outer loop of `process` over `vpcs`. */
  function ProcessVpcs(vpcs: seq<Value>): Result<seq<Dict>, Failure>
    decreases |vpcs|
  {
    if vpcs == [] then Ok([])
    else
      match vpcs[0]
      case VMap(vpc) =>
        (match Get(vpc, "vpc_subnets")
         case None => Err(KeyError("vpc_subnets"))
         case Some(s) =>
           match PyInt(s)
           case None => Err(TypeError)
           case Some(n) => Chain(Runs(vpc, ContextOf(vpc), 0, n), ProcessVpcs(vpcs[1..])))
      case _ => Err(AttributeError)
  }

  /** What `process` returns (before `json.dumps`), or the exception it raises. */
  function ProcessAll(data: Dict): Result<seq<Dict>, Failure> {
    match Get(data, "vpcs")
    case None => Err(KeyError("vpcs"))
    case Some(v) =>
      match Iterate(v)
      case None => Err(TypeError)
      case Some(vpcs) => ProcessVpcs(vpcs)
  }

  lemma ProcessVpcsStep(vpcs: seq<Value>, vpc: Dict, n: int)
    requires vpcs != [] && vpcs[0] == VMap(vpc)
    requires Get(vpc, "vpc_subnets").Some? && PyInt(Get(vpc, "vpc_subnets").value) == Some(n)
    ensures ProcessVpcs(vpcs) == Chain(Runs(vpc, ContextOf(vpc), 0, n), ProcessVpcs(vpcs[1..]))
  {
  }

  /** One iteration of the inner loop of `process`: the exception of subnet `i`, or its record followed by the rest. */
  lemma RunsAdvance(total: Result<seq<Dict>, Failure>, records: seq<Dict>, vpc: Dict, ctx: Context, i: nat, n: int,
                    processed: Result<Dict, Failure>)
    requires i < n && total == Prepend(records, Runs(vpc, ctx, i, n))
    requires processed == ProcessedVpc(vpc, ctx["count_index" := VInt(i + 1)], i)
    ensures processed.Err? ==> total == Err(processed.error)
    ensures processed.Ok? ==> total == Prepend(records + [processed.value], Runs(vpc, ctx, i + 1, n))
  {
    RunsStep(vpc, ctx, i, n);
    if processed.Ok? {
      PrependPrepend(records, [processed.value], Runs(vpc, ctx, i + 1, n));
    }
  }

  /**
   * One iteration of the outer loop of `process` up to its inner loop: the
   * exception raised for a VPC that is not a dictionary or lacks an integer
   * `vpc_subnets`, or else the records of its subnets followed by the rest.
   */
  lemma OuterStep(total: Result<seq<Dict>, Failure>, result: seq<Dict>, vpcs: seq<Value>, j: nat)
    requires j < |vpcs| && total == Prepend(result, ProcessVpcs(vpcs[j..]))
    ensures !vpcs[j].VMap? ==> total == Err(AttributeError)
    ensures vpcs[j].VMap? && Get(vpcs[j].entries, "vpc_subnets").None? ==> total == Err(KeyError("vpc_subnets"))
    ensures (vpcs[j].VMap? && Get(vpcs[j].entries, "vpc_subnets").Some? &&
             PyInt(Get(vpcs[j].entries, "vpc_subnets").value).None?) ==> total == Err(TypeError)
    ensures (vpcs[j].VMap? && Get(vpcs[j].entries, "vpc_subnets").Some? &&
             PyInt(Get(vpcs[j].entries, "vpc_subnets").value).Some?) ==> total == Prepend(result, Chain(Runs(vpcs[j].entries, ContextOf(vpcs[j].entries), 0,
                                                      PyInt(Get(vpcs[j].entries, "vpc_subnets").value).value),
                                                 ProcessVpcs(vpcs[j + 1..])))
  {
    assert vpcs[j..][0] == vpcs[j];
    assert vpcs[j..][1..] == vpcs[j + 1..];
    var vpc := vpcs[j];
    if vpc.VMap? && Get(vpc.entries, "vpc_subnets").Some? && PyInt(Get(vpc.entries, "vpc_subnets").value).Some? {
      ProcessVpcsStep(vpcs[j..], vpc.entries, PyInt(Get(vpc.entries, "vpc_subnets").value).value);
      assert ContextOf(vpc.entries) == ContextOf(vpc.entries)["count_index" := VInt(0)];
    }
  }

  lemma ChainStep(total: Result<seq<Dict>, Failure>, result: seq<Dict>, r1: Result<seq<Dict>, Failure>,
                  r2: Result<seq<Dict>, Failure>)
    requires total == Prepend(result, Chain(r1, r2))
    ensures r1.Err? ==> total == Err(r1.error)
    ensures r1.Ok? ==> total == Prepend(result + r1.value, r2)
  {
    if r1.Ok? {
      PrependPrepend(result, r1.value, r2);
    }
  }

  lemma PrependNil(r: Result<seq<Dict>, Failure>)
    ensures Prepend([], r) == r
  {
    match r
    case Ok(b) => assert [] + b == b;
    case Err(_) =>
  }

  /** Setting `count_index` again overrides the previous setting. */
  lemma UpdateTwice(ctx: Context, k: string, v: Value, w: Value)
    ensures ctx[k := v][k := w] == ctx[k := w]
  {
  }

  lemma PrependEmpty(a: seq<Dict>)
    ensures Prepend(a, Ok([])) == Ok(a)
  {
    assert a + [] == a;
  }

  lemma PrependPrepend(a: seq<Dict>, b: seq<Dict>, r: Result<seq<Dict>, Failure>)
    ensures Prepend(a, Prepend(b, r)) == Prepend(a + b, r)
  {
    match r
    case Ok(c) => assert a + (b + c) == (a + b) + c;
    case Err(_) =>
  }

  /** The record `_process_vpc` returns for subnet index `i`, `count_index` being `i + 1`. */
  function Record(vpc: Dict, ctx: Context, i: nat): Result<Dict, Failure> {
    ProcessedVpc(vpc, ctx["count_index" := VInt(i + 1)], i)
  }

  /** `range(n)` from `i` on yields `n - i` records (none when `i >= n`). */
  lemma {:induction false} RunsLength(vpc: Dict, ctx: Context, i: nat, n: int)
    requires Runs(vpc, ctx, i, n).Ok?
    ensures |Runs(vpc, ctx, i, n).value| == if i < n then n - i else 0
    decreases n - i
  {
    if i < n {
      RunsStep(vpc, ctx, i, n);
      RunsLength(vpc, ctx, i + 1, n);
    }
  }

  lemma {:induction false} RunsRecordAt(vpc: Dict, ctx: Context, i: nat, n: int, j: nat)
    requires Runs(vpc, ctx, i, n).Ok? && j < |Runs(vpc, ctx, i, n).value|
    ensures Record(vpc, ctx, i + j) == Ok(Runs(vpc, ctx, i, n).value[j])
    decreases j
  {
    RunsLength(vpc, ctx, i, n);
    RunsStep(vpc, ctx, i, n);
    if j > 0 {
      RunsRecordAt(vpc, ctx, i + 1, n, j - 1);
      assert (i + 1) + (j - 1) == i + j;
    }
  }

  /**
   * The records produced for one VPC: one per index `i` in `range(n)`, in
   * order, each the VPC processed with `count_index = i + 1`.
   */
  lemma RunsRecords(vpc: Dict, ctx: Context, i: nat, n: int)
    requires Runs(vpc, ctx, i, n).Ok?
    ensures |Runs(vpc, ctx, i, n).value| == if i < n then n - i else 0
    ensures forall j :: 0 <= j < |Runs(vpc, ctx, i, n).value| ==>
      Record(vpc, ctx, i + j) == Ok(Runs(vpc, ctx, i, n).value[j])
  {
    RunsLength(vpc, ctx, i, n);
    forall j | 0 <= j < |Runs(vpc, ctx, i, n).value|
      ensures Record(vpc, ctx, i + j) == Ok(Runs(vpc, ctx, i, n).value[j])
    {
      RunsRecordAt(vpc, ctx, i, n, j);
    }
  }

  /** The record for subnet index `i + j` carries `vlan_id = i + j + 1`. */
  lemma RunsVlanIds(vpc: Dict, ctx: Context, i: nat, n: int)
    requires Runs(vpc, ctx, i, n).Ok?
    ensures forall j :: 0 <= j < |Runs(vpc, ctx, i, n).value| ==>
      Get(Runs(vpc, ctx, i, n).value[j], "vlan_id") == Some(VInt(i + j + 1))
  {
    var rs := Runs(vpc, ctx, i, n).value;
    forall j | 0 <= j < |rs| ensures Get(rs[j], "vlan_id") == Some(VInt(i + j + 1)) {
      RunsVlanIdAt(vpc, ctx, i, n, j);
    }
  }

  lemma RunsVlanIdAt(vpc: Dict, ctx: Context, i: nat, n: int, j: nat)
    requires Runs(vpc, ctx, i, n).Ok? && j < |Runs(vpc, ctx, i, n).value|
    ensures Get(Runs(vpc, ctx, i, n).value[j], "vlan_id") == Some(VInt(i + j + 1))
  {
    RunsRecordAt(vpc, ctx, i, n, j);
    RecordVlanId(vpc, ctx, i + j, Runs(vpc, ctx, i, n).value[j]);
  }

  lemma RecordVlanId(vpc: Dict, ctx: Context, k: nat, r: Dict)
    requires Record(vpc, ctx, k) == Ok(r)
    ensures Get(r, "vlan_id") == Some(VInt(k + 1))
  {
    ProcessedVpcVlanId(vpc, ctx["count_index" := VInt(k + 1)], k);
  }

  lemma RunsStep(vpc: Dict, ctx: Context, i: nat, n: int)
    requires i < n
    ensures Runs(vpc, ctx, i, n) ==
              match Record(vpc, ctx, i)
              case Err(e) => Err(e)
              case Ok(p) => Prepend([p], Runs(vpc, ctx, i + 1, n))
  {
  }

  lemma ChainPrepend(p: seq<Dict>, r1: Result<seq<Dict>, Failure>, r2: Result<seq<Dict>, Failure>)
    ensures Chain(Prepend(p, r1), r2) == Prepend(p, Chain(r1, r2))
  {
    match r1
    case Err(_) =>
    case Ok(a) => PrependPrepend(p, a, r2);
  }

  /** With no empty list in the context, the subnets of a VPC are produced unless a template is not a dictionary. */
  lemma {:induction false} RunsOk(vpc: Dict, ctx: Context, i: nat, n: int)
    requires NonEmptyLists(ctx)
    ensures Runs(vpc, ctx, i, n).Ok? <==> i >= n || TemplatesAreDicts(vpc)
    decreases n - i
  {
    if i < n {
      var c := ctx["count_index" := VInt(i + 1)];
      assert NonEmptyLists(c);
      ProcessedVpcOk(vpc, c, i);
      RunsOk(vpc, ctx, i + 1, n);
    }
  }

  /** A VPC `process` handles without raising: a dictionary with an integer `vpc_subnets` and, if it has subnets, dictionary templates. */
  predicate ProcessableVpc(v: Value) {
    && v.VMap?
    && "vpc_subnets" in Keys(v.entries)
    && PyInt(Get(v.entries, "vpc_subnets").value).Some?
    && (PyInt(Get(v.entries, "vpc_subnets").value).value > 0 ==> TemplatesAreDicts(v.entries))
  }

  /** `len(range(vpc["vpc_subnets"]))`. */
  function SubnetCount(v: Value): nat
    requires ProcessableVpc(v)
  {
    var n := PyInt(Get(v.entries, "vpc_subnets").value).value;
    if n > 0 then n else 0
  }

  function TotalSubnets(vpcs: seq<Value>): nat
    requires forall i :: 0 <= i < |vpcs| ==> ProcessableVpc(vpcs[i])
  {
    if vpcs == [] then 0 else SubnetCount(vpcs[0]) + TotalSubnets(vpcs[1..])
  }

  /**
   * `process` raises exactly when some VPC is not processable, and otherwise
   * returns one record per subnet of every VPC.
   */
  lemma {:induction false} ProcessVpcsOk(vpcs: seq<Value>)
    ensures ProcessVpcs(vpcs).Ok? <==> forall i :: 0 <= i < |vpcs| ==> ProcessableVpc(vpcs[i])
    ensures ProcessVpcs(vpcs).Ok? ==> |ProcessVpcs(vpcs).value| == TotalSubnets(vpcs)
    decreases |vpcs|
  {
    if vpcs != [] {
      ProcessVpcsOk(vpcs[1..]);
      AllProcessableCons(vpcs);
      ProcessVpcsHead(vpcs);
    }
  }

  /** The first VPC and the rest decide `process`, and the records of the first come first. */
  lemma ProcessVpcsHead(vpcs: seq<Value>)
    requires vpcs != []
    ensures ProcessVpcs(vpcs).Ok? <==> ProcessableVpc(vpcs[0]) && ProcessVpcs(vpcs[1..]).Ok?
    ensures ProcessVpcs(vpcs).Ok? ==> |ProcessVpcs(vpcs).value| == SubnetCount(vpcs[0]) + |ProcessVpcs(vpcs[1..]).value|
  {
    var v := vpcs[0];
    if v.VMap? && "vpc_subnets" in Keys(v.entries) && PyInt(Get(v.entries, "vpc_subnets").value).Some? {
      var n := PyInt(Get(v.entries, "vpc_subnets").value).value;
      RunsOk(v.entries, ContextOf(v.entries), 0, n);
      if Runs(v.entries, ContextOf(v.entries), 0, n).Ok? {
        RunsRecords(v.entries, ContextOf(v.entries), 0, n);
      }
    }
  }

  lemma AllProcessableCons(vpcs: seq<Value>)
    requires vpcs != []
    ensures (forall i :: 0 <= i < |vpcs| ==> ProcessableVpc(vpcs[i])) <==>
              ProcessableVpc(vpcs[0]) && forall i :: 0 <= i < |vpcs| - 1 ==> ProcessableVpc(vpcs[1..][i])
  {
    assert forall i :: 1 <= i < |vpcs| ==> vpcs[1..][i - 1] == vpcs[i];
  }

  lemma CountIndexIsName()
    ensures IsName("count_index")
  {
  }

  /** `{count_index}` in the record for subnet index `i` reads `i + 1`. */
  lemma CountIndexToken(vpc: Dict, i: nat)
    ensures ResolveText(Token("count_index"), ContextOf(vpc)["count_index" := VInt(i + 1)], i) == Ok(NatToString(i + 1))
  {
    CountIndexIsName();
    ResolveScalarToken("count_index", ContextOf(vpc)["count_index" := VInt(i + 1)], i);
  }

  /**
   * The context of record `i` meets the premise of ResolveSubstitutesEachToken
   * for any text whose names are bound to plain values, so such text is
   * resolved token by token.
   */
  lemma RecordTextSubstitutes(vpc: Dict, i: nat, ps: seq<Piece>)
    requires WellFormed(ps)
    requires forall p :: p in Names(ps) && p in ContextOf(vpc) && p != "count_index" ==> PlainValue(ContextOf(vpc)[p])
    ensures ResolveText(Render(ps), ContextOf(vpc)["count_index" := VInt(i + 1)], i)
      == Ok(Render(Expand(ps, ContextOf(vpc)["count_index" := VInt(i + 1)], i)))
  {
    var ctx := ContextOf(vpc)["count_index" := VInt(i + 1)];
    SubstitutableOfPlain(Names(ps), ctx, i);
    ResolveSubstitutesEachToken(ps, ctx, i);
  }

  // ---------------------------------------------------------------------------
  // The class

  class PlaceholderProcessor {
    var data: Dict

    /** Input without a `vpcs` key is taken to be a single VPC. */
    constructor(input: Dict)
      ensures "vpcs" in Keys(input) ==> data == input
      ensures "vpcs" !in Keys(input) ==> data == [Entry("vpcs", VList([VMap(input)]))]
    {
      if "vpcs" !in Keys(input) {
        data := [Entry("vpcs", VList([VMap(input)]))];
      } else {
        data := input;
      }
    }

    /** `_create_context`. */
    method CreateContext(vpc: Dict) returns (context: Context)
      ensures context == ContextOf(vpc)
    {
      context := Flatten(vpc, "");
      context := context["count_index" := VInt(0)];
    }

    /** `_resolve_template`: each item resolved; an item whose resolution raises is kept as it is. */
    method ResolveTemplate(template: Dict, context: Context, index: nat) returns (resolved: Dict)
      ensures resolved == ResolvedTemplate(template, context, index)
    {
      resolved := [];
      var i := 0;
      while i < |template|
        invariant 0 <= i <= |template|
        invariant resolved == ResolvedTemplate(template[..i], context, index)
      {
        assert template[..i + 1][..i] == template[..i];
        var r := ResolvePlaceholders(template[i].val, context, index);
        if r.Ok? {
          resolved := Put(resolved, template[i].key, r.value);
        } else {
          resolved := Put(resolved, template[i].key, template[i].val);
        }
        i := i + 1;
      }
      assert template[..|template|] == template;
    }

    /** `_process_vpc`. */
    method ProcessVpc(vpc: Dict, context: Context, index: nat) returns (r: Result<Dict, Failure>)
      ensures r == ProcessedVpc(vpc, context, index)
    {
      var processedVpc: Dict := [];
      var i := 0;
      while i < |vpc|
        invariant 0 <= i <= |vpc|
        invariant ProcessEntries(vpc[..i], context, index) == Ok(processedVpc)
      {
        var next := ProcessItem(processedVpc, vpc[i], context, index);
        ProcessEntriesNext(vpc, i, processedVpc, context, index);
        if next.Err? {
          ProcessedVpcErr(vpc, i + 1, context, index);
          return Err(next.error);
        }
        processedVpc := next.value;
        i := i + 1;
      }
      ProcessedVpcDone(vpc, processedVpc, context, index);
      processedVpc := Put(processedVpc, "vlan_id", VInt(index + 1));
      return Ok(processedVpc);
    }

    /** One iteration of the loop of `_process_vpc`: `key: value` stored into `processed_vpc`. */
    method ProcessItem(processedVpc: Dict, item: Entry, context: Context, index: nat)
      returns (r: Result<Dict, Failure>)
      ensures r == ProcessEntry(processedVpc, item, context, index)
    {
      var key, value := item.key, item.val;
      if key == "template" {
        if !value.VMap? {
          return Err(AttributeError);
        }
        var resolved := ResolveTemplate(value.entries, context, index);
        return Ok(PutAll(processedVpc, resolved));
      } else if value.VMap? {
        var p := ProcessDict(value.entries, context, index);
        if p.Err? {
          return Err(p.error);
        }
        return Ok(Put(processedVpc, key, VMap(p.value)));
      } else if value.VList? {
        var p := ProcessList(value.items, context, index);
        if p.Err? {
          return Err(p.error);
        }
        return Ok(Put(processedVpc, key, VList(p.value)));
      } else {
        var p := ResolvePlaceholders(VStr(Str(value)), context, index);
        if p.Err? {
          return Err(p.error);
        }
        return Ok(Put(processedVpc, key, p.value));
      }
    }

    /**
     * The inner loop of `process` for one VPC: `count_index` is set to
     * `index + 1` in the shared context before each `_process_vpc` call.
     */
    method ProcessSubnets(vpc: Dict, context0: Context, n: int) returns (r: Result<seq<Dict>, Failure>)
      ensures r == Runs(vpc, context0, 0, n)
    {
      var context := context0;
      var records: seq<Dict> := [];
      var index := 0;
      ghost var total := Runs(vpc, context0, 0, n);
      PrependNil(total);
      while index < n
        invariant index == 0 || index <= n
        invariant context == if index == 0 then context0 else context0["count_index" := VInt(index)]
        invariant total == Prepend(records, Runs(vpc, context0, index, n))
        decreases n - index
      {
        if index > 0 {
          UpdateTwice(context0, "count_index", VInt(index), VInt(index + 1));
        }
        context := context["count_index" := VInt(index + 1)];
        var processed := ProcessVpc(vpc, context, index);
        RunsAdvance(total, records, vpc, context0, index, n, processed);
        if processed.Err? {
          return Err(processed.error);
        }
        records := records + [processed.value];
        index := index + 1;
      }
      PrependEmpty(records);
      return Ok(records);
    }

    /** `process`: the records of every VPC, one per subnet index, in order. */
    method Process() returns (r: Result<seq<Dict>, Failure>)
      ensures r == ProcessAll(data)
    {
      ghost var total := ProcessAll(data);
      var vpcsValue := Get(data, "vpcs");
      if vpcsValue.None? {
        return Err(KeyError("vpcs"));
      }
      var iterated := Iterate(vpcsValue.value);
      if iterated.None? {
        return Err(TypeError);
      }
      var vpcs := iterated.value;
      var result: seq<Dict> := [];
      var j := 0;
      assert vpcs[0..] == vpcs;
      PrependNil(ProcessVpcs(vpcs));
      while j < |vpcs|
        invariant 0 <= j <= |vpcs|
        invariant total == Prepend(result, ProcessVpcs(vpcs[j..]))
      {
        OuterStep(total, result, vpcs, j);
        var vpc := vpcs[j];
        if !vpc.VMap? {
          return Err(AttributeError);
        }
        var context := CreateContext(vpc.entries);
        var subnets := Get(vpc.entries, "vpc_subnets");
        if subnets.None? {
          return Err(KeyError("vpc_subnets"));
        }
        var n := PyInt(subnets.value);
        if n.None? {
          return Err(TypeError);
        }
        var records := ProcessSubnets(vpc.entries, context, n.value);
        ChainStep(total, result, records, ProcessVpcs(vpcs[j + 1..]));
        if records.Err? {
          return Err(records.error);
        }
        result := result + records.value;
        j := j + 1;
      }
      assert vpcs[j..] == [];
      assert result + [] == result;
      return Ok(result);
    }
  }
}
