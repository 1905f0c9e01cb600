/**
 * The snapshot a fetch accumulates: a dictionary of 29 financial fields plus `symbol`, merged
 * with the `v` object of every `qsd` segment whose status is `ok`. `Classify` is the decision the
 * `try` block of `on_message` takes for one segment, including the inputs on which Python raises
 * and the bare `except` skips the segment; `Accumulator` is the mutable state the handler closes
 * over, and its methods are the handler's loops.
 */
module Snapshot {
  import opened Wrappers
  import opened Strings
  import opened Json
  import opened FrameCodec

  /** The financial keys of the initial dictionary, in their declaration order. */
  const FINANCIAL_FIELDS: seq<string> := [
    "business_description", "web_site_url",
    "total_assets_fy_h", "total_assets_fq_h",
    "total_liabilities_fy_h", "total_liabilities_fq_h",
    "total_equity_fy_h", "total_equity_fq_h",
    "net_debt_fy_h", "net_debt_fq_h",
    "fiscal_period_fy_h", "fiscal_period_fq_h",
    "fiscal_period_end_fy_h", "fiscal_period_end_fq_h",
    "total_shares_outstanding_fy",
    "book_value_per_share_fy_h", "book_value_per_share_fq_h",
    "earnings_per_share_diluted_fy_h", "earnings_per_share_diluted_fq_h",
    "price_earnings_fy_h", "price_earnings_fq_h",
    "price_book_fy_h", "price_book_fq_h",
    "dividends_availability", "dividend_type_h", "dividend_amount_h",
    "dividends_yield_fy_h", "dividend_payment_date_h", "dividend_ex_date_h"
  ]

  /** Every key of the snapshot, in iteration order: the financial fields, then `symbol`. */
  const SNAPSHOT_KEYS: seq<string> := FINANCIAL_FIELDS + ["symbol"]

  const KEY_SET: set<string> := set k | k in SNAPSHOT_KEYS

  const HEARTBEAT := "~h~"

  /** The dictionary a fetch starts from: every financial field `None`, `symbol` the requested symbol. */
  function InitialSnapshot(symbol: string): (d: map<string, Json>)
    ensures d.Keys == KEY_SET
    ensures d["symbol"] == Str(symbol)
    ensures forall k :: k in FINANCIAL_FIELDS ==> d[k] == Null
  {
    SymbolIsNotFinancial();
    SymbolIsKey();
    map k | k in SNAPSHOT_KEYS :: if k in FINANCIAL_FIELDS then Null else Str(symbol)
  }

  lemma SymbolIsNotFinancial()
    ensures "symbol" !in FINANCIAL_FIELDS
  {
    forall f | f in FINANCIAL_FIELDS ensures |f| != |"symbol"| { }
  }

  lemma SymbolIsKey()
    ensures "symbol" in KEY_SET
  {
    assert SNAPSHOT_KEYS[|FINANCIAL_FIELDS|] == "symbol";
  }

  /** The part of a `v` object the key loop copies: its entries under snapshot keys. */
  function Restrict(v: map<string, Json>): (r: map<string, Json>)
    ensures r.Keys == v.Keys * KEY_SET
    ensures forall k :: k in r ==> r[k] == v[k]
  {
    map k | k in v && k in KEY_SET :: v[k]
  }

  /** A dictionary where exactly the snapshot keys present in `v` took their value from `v`. */
  lemma MergeComplete(before: map<string, Json>, after: map<string, Json>, v: map<string, Json>)
    requires before.Keys == KEY_SET && after.Keys == KEY_SET
    requires forall k :: k in after ==> after[k] == (if k in v && k in SNAPSHOT_KEYS then v[k] else before[k])
    ensures after == before + Restrict(v)
  {
  }

  /** One turn of the key loop keeps "exactly the keys seen so far were copied". */
  lemma MergeStep(keys: seq<string>, i: nat, v: map<string, Json>, before: map<string, Json>,
                  data: map<string, Json>, next: map<string, Json>)
    requires i < |keys| && keys[i] in data && data.Keys <= before.Keys
    requires forall k :: k in data ==> data[k] == (if k in v && k in keys[..i] then v[k] else before[k])
    requires next == if keys[i] in v then data[keys[i] := v[keys[i]]] else data
    ensures next.Keys == data.Keys
    ensures forall k :: k in next ==> next[k] == (if k in v && k in keys[..i + 1] then v[k] else before[k])
  {
    assert keys[..i + 1] == keys[..i] + [keys[i]];
    forall k | k in next
      ensures next[k] == (if k in v && k in keys[..i + 1] then v[k] else before[k])
    {
      assert k in keys[..i + 1] <==> k in keys[..i] || k == keys[i];
    }
  }

  /** What one segment does to the snapshot: nothing, or the entries it writes (and, in the first-delta fetch, the received flag). */
  datatype Delta = Ignored | Accepted(updates: map<string, Json>)

  /** `key in v_data` is true for some snapshot key: on a list or a string the lookup that follows raises. */
  predicate SomeKeyIn(v: Json) {
    match v
    case Arr(items) => exists k | k in SNAPSHOT_KEYS :: Str(k) in items
    case Str(s) => exists k | k in SNAPSHOT_KEYS :: IsSubstring(k, s)
    case _ => false
  }

  /** A decoded segment is a `qsd` message whose second parameter is an object with status `ok`. */
  predicate IsQsdOk(data: Json) {
    data.Obj? && Get(data.fields, "m") == Some(Str("qsd")) &&
    var p := GetOr(data.fields, "p", Arr([]));
    p.Arr? && |p.items| >= 2 && p.items[1].Obj? && Get(p.items[1].fields, "s") == Some(Str("ok"))
  }

  /** The `v` value of a segment satisfying `IsQsdOk`, with an empty object when it is missing. */
  function Payload(data: Json): Json
    requires IsQsdOk(data)
  {
    GetOr(GetOr(data.fields, "p", Arr([])).items[1].fields, "v", Obj(map[]))
  }

  /**
   * The outcome of the `try` block for one segment, `decoded` being `json.loads(segment)` or `None`
   * when it raises. A non-object top level raises on `.get`; a `p` that is not a list of at least two
   * items whose second is an object either fails the test or raises in `len` or indexing; a `v` that
   * is `None`, a number or a boolean raises on `in`; a list or string `v` raises on the first snapshot
   * key it contains and is otherwise a merge that writes nothing.
   */
  function Classify(decoded: Option<Json>): (d: Delta)
    ensures d.Accepted? ==> d.updates.Keys <= KEY_SET
    ensures d.Accepted? <==>
      (decoded.Some? && IsQsdOk(decoded.value) &&
       (Payload(decoded.value).Obj? || Payload(decoded.value).Arr? || Payload(decoded.value).Str?) &&
       !SomeKeyIn(Payload(decoded.value)))
  {
    if decoded.None? || !IsQsdOk(decoded.value) then Ignored
    else
      match Payload(decoded.value)
      case Obj(fields) => Accepted(Restrict(fields))
      case Arr(_) => if SomeKeyIn(Payload(decoded.value)) then Ignored else Accepted(map[])
      case Str(_) => if SomeKeyIn(Payload(decoded.value)) then Ignored else Accepted(map[])
      case _ => Ignored
  }

  /** The handler's state: the dictionary and the `received_data` flag. */
  datatype State = State(data: map<string, Json>, received: bool)

  function ApplyDelta(st: State, d: Delta): State {
    match d
    case Ignored => st
    case Accepted(updates) => State(st.data + updates, true)
  }

  /** The deltas applied one after the other, in order. */
  function ApplyDeltas(st: State, ds: seq<Delta>): State
    decreases |ds|
  {
    if ds == [] then st else ApplyDelta(ApplyDeltas(st, ds[..|ds| - 1]), ds[|ds| - 1])
  }

  /** The deltas of the segments of one message; a heartbeat contributes none. */
  function MessageDeltas(message: string, decode: string -> Option<Json>): seq<Delta> {
    if StartsWith(message, HEARTBEAT) then []
    else var segments := Scan(message); seq(|segments|, i requires 0 <= i < |segments| => Classify(decode(segments[i])))
  }

  function SegmentDeltas(segments: seq<string>, decode: string -> Option<Json>): seq<Delta> {
    seq(|segments|, i requires 0 <= i < |segments| => Classify(decode(segments[i])))
  }

  /** `on_message` with a given decoder, as a function from a message to the deltas of its segments. */
  function Handler(decode: string -> Option<Json>): string -> seq<Delta> {
    m => MessageDeltas(m, decode)
  }

  /** The messages handled one after the other, `handle` giving the deltas of each. */
  function ApplyMessages(st: State, messages: seq<string>, handle: string -> seq<Delta>): State
    decreases |messages|
  {
    if messages == [] then st
    else ApplyDeltas(ApplyMessages(st, messages[..|messages| - 1], handle), handle(messages[|messages| - 1]))
  }

  /** The snapshot and flag `on_message` mutates, with the handler's loops as methods. */
  class Accumulator {
    var data: map<string, Json>
    var receivedData: bool

    ghost predicate Valid()
      reads this
    {
      data.Keys == KEY_SET
    }

    function Current(): State
      reads this
    {
      State(data, receivedData)
    }

    constructor (symbol: string)
      ensures Valid() && data == InitialSnapshot(symbol) && !receivedData
    {
      data := InitialSnapshot(symbol);
      receivedData := false;
    }

    /** The `for key in financial_data.keys()` loop: copy each snapshot key present in `v`. */
    method MergeFields(v: map<string, Json>)
      requires Valid()
      modifies this
      ensures Valid() && data == old(data) + Restrict(v) && receivedData == old(receivedData)
    {
      var keys := SNAPSHOT_KEYS;
      var i := 0;
      while i < |keys|
        invariant 0 <= i <= |keys|
        invariant data.Keys == old(data).Keys && receivedData == old(receivedData)
        invariant forall k :: k in data ==>
          data[k] == (if k in v && k in keys[..i] then v[k] else old(data)[k])
      {
        var key := keys[i];
        var next := if key in v then data[key := v[key]] else data;
        MergeStep(keys, i, v, old(data), data, next);
        data := next;
        i := i + 1;
      }
      assert keys[..i] == keys;
      MergeComplete(old(data), data, v);
    }

    /** One segment: merge when it is an accepted `qsd` update, then raise the received flag. */
    method HandleSegment(decoded: Option<Json>)
      requires Valid()
      modifies this
      ensures Valid() && Current() == ApplyDelta(old(Current()), Classify(decoded))
    {
      var delta := Classify(decoded);
      if delta.Accepted? {
        var v := Payload(decoded.value);
        if v.Obj? {
          MergeFields(v.fields);
        }
        receivedData := true;
      }
    }

    /** `on_message`: drop heartbeats, scan the frames, handle each segment in order. */
    method OnMessage(message: string, decode: string -> Option<Json>)
      requires Valid()
      modifies this
      ensures Valid() && Current() == ApplyDeltas(old(Current()), MessageDeltas(message, decode))
    {
      if StartsWith(message, HEARTBEAT) {
        return;
      }
      var segments := ParseMessage(message);
      var deltas := SegmentDeltas(segments, decode);
      assert deltas == MessageDeltas(message, decode);
      for i := 0 to |segments|
        invariant Valid()
        invariant Current() == ApplyDeltas(old(Current()), deltas[..i])
      {
        HandleSegment(decode(segments[i]));
        assert deltas[..i + 1][..i] == deltas[..i];
      }
      assert deltas[..|segments|] == deltas;
    }
  }

  /** Every accepted delta of the sequence writes only snapshot keys. */
  predicate StaysInKeys(ds: seq<Delta>) {
    forall i :: 0 <= i < |ds| && ds[i].Accepted? ==> ds[i].updates.Keys <= KEY_SET
  }

  /** Updates that stay within the snapshot keys never add or remove a key of the dictionary. */
  lemma {:induction false} KeysPreserved(st: State, ds: seq<Delta>)
    requires st.data.Keys == KEY_SET && StaysInKeys(ds)
    ensures ApplyDeltas(st, ds).data.Keys == KEY_SET
  {
    if ds != [] {
      KeysPreserved(st, ds[..|ds| - 1]);
    }
  }

  /** Some delta of the sequence is an accepted update. */
  predicate AnyAccepted(ds: seq<Delta>)
    decreases |ds|
  {
    ds != [] && (ds[|ds| - 1].Accepted? || AnyAccepted(ds[..|ds| - 1]))
  }

  /** `AnyAccepted` is the existential it names. */
  lemma {:induction false} AnyAcceptedIff(ds: seq<Delta>)
    ensures AnyAccepted(ds) <==> exists i :: 0 <= i < |ds| && ds[i].Accepted?
    decreases |ds|
  {
    if ds != [] {
      var init := ds[..|ds| - 1];
      AnyAcceptedIff(init);
      if exists i :: 0 <= i < |init| && init[i].Accepted? {
        var i :| 0 <= i < |init| && init[i].Accepted?;
        assert ds[i].Accepted?;
      }
      if exists i :: 0 <= i < |ds| && ds[i].Accepted? {
        var i :| 0 <= i < |ds| && ds[i].Accepted?;
        if i < |init| {
          assert init[i].Accepted?;
        }
      }
    }
  }

  /** The received flag ends up set exactly when it was set before or some delta was accepted. */
  lemma {:induction false} ReceivedIffAccepted(st: State, ds: seq<Delta>)
    ensures ApplyDeltas(st, ds).received <==> st.received || AnyAccepted(ds)
    decreases |ds|
  {
    if ds != [] {
      ReceivedIffAccepted(st, ds[..|ds| - 1]);
    }
  }

  /** `delta` writes `key`. */
  predicate Writes(d: Delta, key: string) {
    d.Accepted? && key in d.updates
  }

  /** Last write wins: after the deltas, a key holds the value of the last delta writing it. */
  lemma {:induction false} LastWriteWins(st: State, ds: seq<Delta>, key: string, i: nat)
    requires i < |ds| && Writes(ds[i], key)
    requires forall j :: i < j < |ds| ==> !Writes(ds[j], key)
    ensures key in ApplyDeltas(st, ds).data
    ensures ApplyDeltas(st, ds).data[key] == ds[i].updates[key]
  {
    var last := |ds| - 1;
    if i < last {
      LastWriteWins(st, ds[..last], key, i);
      assert !Writes(ds[last], key);
    }
  }

  /** A key no delta writes keeps its value. */
  lemma {:induction false} UnwrittenKeyUnchanged(st: State, ds: seq<Delta>, key: string)
    requires key in st.data
    requires forall j :: 0 <= j < |ds| ==> !Writes(ds[j], key)
    ensures key in ApplyDeltas(st, ds).data
    ensures ApplyDeltas(st, ds).data[key] == st.data[key]
  {
    if ds != [] {
      UnwrittenKeyUnchanged(st, ds[..|ds| - 1], key);
      assert !Writes(ds[|ds| - 1], key);
    }
  }

  /** A heartbeat never frames any payload, so dropping it early changes nothing the scan would find. */
  lemma HeartbeatScansToNothing(message: string)
    requires StartsWith(message, HEARTBEAT)
    ensures Scan(message) == []
  {
    assert message[1] == 'h';
    assert !StartsWith(message, MARKER);
  }

  /** A `qsd`/`ok` update with a `v` object writes exactly its entries under snapshot keys, `symbol` included. */
  lemma QsdObjectWrites(data: Json)
    requires IsQsdOk(data) && Payload(data).Obj?
    ensures Classify(Some(data)) == Accepted(Restrict(Payload(data).fields))
    ensures "symbol" in Payload(data).fields ==> "symbol" in Restrict(Payload(data).fields)
  {
    assert SNAPSHOT_KEYS[29] == "symbol";
  }
}
