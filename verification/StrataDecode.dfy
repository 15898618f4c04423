/** What the StrataFS records decode to: one map each, full or reduced. */
module StrataDecode {
  import opened Widths
  import opened MsgPack
  import opened PayloadWriter
  import opened StrataRecords

  function PathPairs(path: Option<Bytes>): seq<Pair> {
    if path.Some? then [Pair(B("path"), Str(path.value))] else []
  }

  function StratumPair(role: string, index: u32, path: Option<Bytes>): Pair {
    Pair(B(role), Map([Pair(B("stratum"), Map([Pair(B("index"), Int(index))] + PathPairs(path)))]))
  }

  function ObjectPair(relative: Bytes): Pair {
    Pair(B("object"), Map([Pair(B("file"), Map([Pair(B("path-relative"), Str(Slashed(relative)))]))]))
  }

  function CopyUpOutcomePair(result: i32): Pair {
    Pair(B("outcome"), Map([Pair(B("success"), Bool(result >= 0))] +
                           if result >= 0 then [] else [Pair(B("errno"), Int(result))]))
  }

  function CopyUpValue(c: CopyUpRecord, reduced: bool): Value {
    Map((if reduced then [] else [ObjectPair(c.relative)]) +
        [StratumPair("source", c.providerIndex, Kept(c.provider, reduced))] +
        [StratumPair("destination", c.createIndex, Kept(c.create, reduced))] +
        [CopyUpOutcomePair(c.result)])
  }

  function RefusalValue(c: Refusal, reduced: bool): Value {
    Map((if reduced then [] else [ObjectPair(c.relative)]) +
        [Pair(B("operation"), Map([Pair(B("name"), Str(c.operation))]))] +
        (if c.provider.Some? then [StratumPair("source", c.index, Kept(c.provider.value, reduced))] else []) +
        [Pair(B("outcome"), Map([Pair(B("errno"), Int(c.result))] + [Pair(B("deferred"), Bool(c.deferred))]))])
  }

  // ----- building blocks -----

  lemma OneField(key: string, enc: Bytes, v: Value)
    requires |key| < 64 && Encodes(enc, v)
    ensures EncodesPairs(KeyForm(key) + enc, [Pair(B(key), v)])
  {
    hide Encodes;
    hide EncodesPairs;
    hide B;
    hide StrBytes;
    NoPairs();
    PairsAppend([], [], B(key), enc, v);
    assert [] + StrBytes(B(key)) + enc == KeyForm(key) + enc;
    assert [] + [Pair(B(key), v)] == [Pair(B(key), v)];
  }

  lemma Join(b: Bytes, ps: seq<Pair>, c: Bytes, qs: seq<Pair>)
    requires EncodesPairs(b, ps) && EncodesPairs(c, qs)
    ensures EncodesPairs(b + c, ps + qs)
  {
    hide DecodePairs;
    forall rest: Bytes ensures DecodePairs(b + c + rest, |ps + qs|) == Some(Parsed(ps + qs, rest)) {
      assert b + c + rest == b + (c + rest);
      assert DecodePairs(b + (c + rest), |ps|) == Some(Parsed(ps, c + rest));
      assert DecodePairs(c + rest, |qs|) == Some(Parsed(qs, rest));
      DecodePairsThen(b + (c + rest), |ps|, |qs|);
    }
  }

  lemma Wrapped(b: Bytes, ps: seq<Pair>)
    requires EncodesPairs(b, ps) && |ps| <= 15
    ensures Encodes(MapForm(|ps|) + b, Map(ps))
  {
    hide Encodes;
    hide EncodesPairs;
    MapEncodes(b, ps);
  }

  lemma StringForm(s: Bytes)
    requires |s| < U32
    ensures Encodes(StrBytes(s), Str(s))
  {
    hide Encodes;
    StrEncodes(s);
  }

  lemma NumberForms(n: u32, k: i32, b: bool)
    ensures Encodes(U32Form(n), Int(n))
    ensures k < 0 ==> Encodes(S32Form(k), Int(k))
    ensures Encodes(BoolForm(b), Bool(b))
  {
    hide Decode;
    Widths256();
    forall rest ensures Decode(U32Form(n) + rest) == Some(Parsed(Int(n), rest)) {
      UnsignedRoundTrip(0xce, n, 4, rest);
    }
    if k < 0 {
      forall rest ensures Decode(S32Form(k) + rest) == Some(Parsed(Int(k), rest)) {
        SignedRoundTrip(0xd2, k, 4, rest);
      }
    }
    forall rest ensures Decode(BoolForm(b) + rest) == Some(Parsed(Bool(b), rest)) {
      BoolRoundTrip(b, rest);
    }
  }

  // ----- parts -----

  lemma ObjectDecodes(relative: Bytes)
    requires IsPath(relative)
    ensures EncodesPairs(ObjectForm(relative), [ObjectPair(relative)])
  {
    hide Encodes;
    hide EncodesPairs;
    hide B;
    hide KeyForm;
    hide StrBytes;
    hide MapForm;
    var path := StrBytes(Slashed(relative));
    StringForm(Slashed(relative));
    OneField("path-relative", path, Str(Slashed(relative)));
    var inner := KeyForm("path-relative") + path;
    Wrapped(inner, [Pair(B("path-relative"), Str(Slashed(relative)))]);
    OneField("file", MapForm(1) + inner, Map([Pair(B("path-relative"), Str(Slashed(relative)))]));
    var middle := KeyForm("file") + (MapForm(1) + inner);
    Wrapped(middle, [Pair(B("file"), Map([Pair(B("path-relative"), Str(Slashed(relative)))]))]);
    OneField("object", MapForm(1) + middle,
             Map([Pair(B("file"), Map([Pair(B("path-relative"), Str(Slashed(relative)))]))]));
    assert KeyForm("object") + (MapForm(1) + middle) == ObjectForm(relative);
  }

  lemma StratumDecodes(role: string, index: u32, path: Option<Bytes>)
    requires |role| < 64 && (path.Some? ==> IsPath(path.value))
    ensures EncodesPairs(StratumForm(role, index, path), [StratumPair(role, index, path)])
  {
    hide Encodes;
    hide EncodesPairs;
    hide B;
    hide KeyForm;
    hide StrBytes;
    hide MapForm;
    hide U32Form;
    NumberForms(index, 0, true);
    OneField("index", U32Form(index), Int(index));
    var tail := if path.Some? then KeyForm("path") + StrBytes(path.value) else [];
    if path.Some? {
      StringForm(path.value);
      OneField("path", StrBytes(path.value), Str(path.value));
    } else {
      NoPairs();
    }
    var fields, ps := KeyForm("index") + U32Form(index) + tail, [Pair(B("index"), Int(index))] + PathPairs(path);
    Join(KeyForm("index") + U32Form(index), [Pair(B("index"), Int(index))], tail, PathPairs(path));
    Wrapped(fields, ps);
    var inner := MapForm(|ps|) + fields;
    OneField("stratum", inner, Map(ps));
    Wrapped(KeyForm("stratum") + inner, [Pair(B("stratum"), Map(ps))]);
    var outer := MapForm(1) + (KeyForm("stratum") + inner);
    OneField(role, outer, Map([Pair(B("stratum"), Map(ps))]));
    assert KeyForm(role) + outer == StratumForm(role, index, path);
  }

  lemma CopyUpOutcomeDecodes(result: i32)
    ensures EncodesPairs(CopyUpOutcome(result), [CopyUpOutcomePair(result)])
  {
    hide EncodesPairs;
    hide CopyUpOutcome;
    hide CopyUpOutcomePair;
    if result >= 0 {
      SuccessDecodes(result);
    } else {
      FailureDecodes(result);
    }
  }

  lemma SuccessDecodes(result: i32)
    requires result >= 0
    ensures EncodesPairs(CopyUpOutcome(result), [CopyUpOutcomePair(result)])
  {
    hide Encodes;
    hide EncodesPairs;
    hide B;
    hide KeyForm;
    hide MapForm;
    hide S32Form;
    hide BoolForm;
    NumberForms(0, 0, true);
    var a, ps := KeyForm("success") + BoolForm(true), [Pair(B("success"), Bool(true))];
    OneField("success", BoolForm(true), Bool(true));
    OutcomeOf(a, ps);
    assert KeyForm("outcome") + (MapForm(1) + a) == CopyUpOutcome(result);
    assert ps + [] == ps;
  }

  lemma FailureDecodes(result: i32)
    requires result < 0
    ensures EncodesPairs(CopyUpOutcome(result), [CopyUpOutcomePair(result)])
  {
    hide Encodes;
    hide EncodesPairs;
    hide B;
    hide KeyForm;
    hide MapForm;
    hide S32Form;
    hide BoolForm;
    NumberForms(0, result, false);
    var a, ps := KeyForm("success") + BoolForm(false), [Pair(B("success"), Bool(false))];
    OneField("success", BoolForm(false), Bool(false));
    var b, qs := KeyForm("errno") + S32Form(result), [Pair(B("errno"), Int(result))];
    OneField("errno", S32Form(result), Int(result));
    Join(a, ps, b, qs);
    OutcomeOf(a + b, ps + qs);
    assert KeyForm("outcome") + (MapForm(2) + (a + b)) == CopyUpOutcome(result);
  }

  lemma OutcomeOf(b: Bytes, ps: seq<Pair>)
    requires EncodesPairs(b, ps) && |ps| <= 15
    ensures EncodesPairs(KeyForm("outcome") + (MapForm(|ps|) + b), [Pair(B("outcome"), Map(ps))])
  {
    hide Encodes;
    hide EncodesPairs;
    hide B;
    hide KeyForm;
    hide MapForm;
    Wrapped(b, ps);
    OneField("outcome", MapForm(|ps|) + b, Map(ps));
  }

  lemma RefusalOutcomeDecodes(c: Refusal)
    requires c.result < 0
    ensures EncodesPairs(RefusalOutcome(c),
                         [Pair(B("outcome"),
                               Map([Pair(B("errno"), Int(c.result))] + [Pair(B("deferred"), Bool(c.deferred))]))])
  {
    hide Encodes;
    hide EncodesPairs;
    hide B;
    hide KeyForm;
    hide MapForm;
    hide S32Form;
    hide BoolForm;
    NumberForms(0, c.result, c.deferred);
    OneField("errno", S32Form(c.result), Int(c.result));
    OneField("deferred", BoolForm(c.deferred), Bool(c.deferred));
    var a, b := KeyForm("errno") + S32Form(c.result), KeyForm("deferred") + BoolForm(c.deferred);
    var ps := [Pair(B("errno"), Int(c.result))] + [Pair(B("deferred"), Bool(c.deferred))];
    Join(a, [Pair(B("errno"), Int(c.result))], b, [Pair(B("deferred"), Bool(c.deferred))]);
    OutcomeOf(a + b, ps);
    assert KeyForm("outcome") + (MapForm(2) + (a + b)) == RefusalOutcome(c);
  }

  lemma OperationDecodes(operation: Bytes)
    requires |operation| < 64
    ensures EncodesPairs(OperationForm(operation), [Pair(B("operation"), Map([Pair(B("name"), Str(operation))]))])
  {
    hide Encodes;
    hide EncodesPairs;
    hide B;
    hide KeyForm;
    hide MapForm;
    hide StrBytes;
    StringForm(operation);
    OneField("name", StrBytes(operation), Str(operation));
    var inner := KeyForm("name") + StrBytes(operation);
    Wrapped(inner, [Pair(B("name"), Str(operation))]);
    OneField("operation", MapForm(1) + inner, Map([Pair(B("name"), Str(operation))]));
    assert KeyForm("operation") + (MapForm(1) + inner) == OperationForm(operation);
  }

  // ----- records -----

  /** A copy-up record, full or reduced, is one map whose header counts exactly the
      pairs written, and decodes to this value. */
  lemma CopyUpDecodes(c: CopyUpRecord, reduced: bool)
    requires CopyUpFits(c)
    ensures Encodes(CopyUpBytes(c, reduced), CopyUpValue(c, reduced))
  {
    hide Encodes;
    hide EncodesPairs;
    hide B;
    hide MapForm;
    hide ObjectForm;
    hide StratumForm;
    hide CopyUpOutcome;
    hide StratumPair;
    hide ObjectPair;
    hide CopyUpOutcomePair;
    var o := if reduced then [] else ObjectForm(c.relative);
    var os := if reduced then [] else [ObjectPair(c.relative)];
    if reduced {
      NoPairs();
    } else {
      ObjectDecodes(c.relative);
    }
    var p := StratumForm("source", c.providerIndex, Kept(c.provider, reduced));
    var ps := [StratumPair("source", c.providerIndex, Kept(c.provider, reduced))];
    StratumDecodes("source", c.providerIndex, Kept(c.provider, reduced));
    Join(o, os, p, ps);
    var q := StratumForm("destination", c.createIndex, Kept(c.create, reduced));
    var qs := [StratumPair("destination", c.createIndex, Kept(c.create, reduced))];
    StratumDecodes("destination", c.createIndex, Kept(c.create, reduced));
    Join(o + p, os + ps, q, qs);
    CopyUpOutcomeDecodes(c.result);
    Join(o + p + q, os + ps + qs, CopyUpOutcome(c.result), [CopyUpOutcomePair(c.result)]);
    var all := os + ps + qs + [CopyUpOutcomePair(c.result)];
    var bytes := o + p + q + CopyUpOutcome(c.result);
    Wrapped(bytes, all);
    assert MapForm(|all|) + bytes == CopyUpBytes(c, reduced);
  }

  lemma RefusalDecodes(c: Refusal, reduced: bool)
    requires RefusalFits(c) && c.result < 0
    ensures Encodes(RefusalBytes(c, reduced), RefusalValue(c, reduced))
  {
    hide Encodes;
    hide EncodesPairs;
    hide B;
    hide MapForm;
    hide ObjectForm;
    hide StratumForm;
    hide OperationForm;
    hide RefusalOutcome;
    hide StratumPair;
    hide ObjectPair;
    var o := if reduced then [] else ObjectForm(c.relative);
    var os := if reduced then [] else [ObjectPair(c.relative)];
    if reduced {
      NoPairs();
    } else {
      ObjectDecodes(c.relative);
    }
    var ps := [Pair(B("operation"), Map([Pair(B("name"), Str(c.operation))]))];
    OperationDecodes(c.operation);
    Join(o, os, OperationForm(c.operation), ps);
    var q := RefusalSource(c, reduced);
    var qs := if c.provider.Some? then [StratumPair("source", c.index, Kept(c.provider.value, reduced))] else [];
    if c.provider.Some? {
      StratumDecodes("source", c.index, Kept(c.provider.value, reduced));
    } else {
      NoPairs();
    }
    Join(o + OperationForm(c.operation), os + ps, q, qs);
    var rs := [Pair(B("outcome"), Map([Pair(B("errno"), Int(c.result))] + [Pair(B("deferred"), Bool(c.deferred))]))];
    RefusalOutcomeDecodes(c);
    Join(o + OperationForm(c.operation) + q, os + ps + qs, RefusalOutcome(c), rs);
    var all := os + ps + qs + rs;
    var bytes := o + OperationForm(c.operation) + q + RefusalOutcome(c);
    Wrapped(bytes, all);
    assert MapForm(|all|) + bytes == RefusalBytes(c, reduced);
  }
}
