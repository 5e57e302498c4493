/**
 * export_quantization_config of the QNN DSP exporter: the `activation_encodings` and
 * `param_encodings` maps, from variable names to encoding entries, filled by one pass over
 * the quantable operations in topological order and, within each, over its (configuration,
 * variable) pairs.
 *
 * A pair whose state cannot be exported stops the export with PermissionError; a pair that
 * is INTERNAL, FP32 or SOI is passed over; a PASSIVE pair is passed over when its variable
 * already has an activation entry. Every other pair writes its entry into the parameter map
 * when its variable is a parameter and into the activation map otherwise, replacing an
 * earlier entry under the same name.
 */
module Qnn {
  import opened Failures
  import opened Quant
  import opened Graphs
  import opened Views

  /** An encoding entry: bit width, clipping range, offsets and scales, one per channel. */
  datatype Encoding = Encoding(bitwidth: int, max: seq<real>, min: seq<real>, offset: seq<int>, scale: seq<real>)

  /** The exported dictionary, with exactly its two keys. */
  datatype Encodings = Encodings(activationEncodings: map<string, Encoding>, paramEncodings: map<string, Encoding>)

  /** One (configuration, variable) pair. */
  type Pair = (QuantConfig, VarView)

  /** The entry of a list at `k`, a one-entry list standing for all positions (broadcasting). */
  function At<T>(xs: seq<T>, k: nat): T
    requires |xs| == 1 || k < |xs|
  {
    if |xs| == 1 then xs[0] else xs[k]
  }

  /**
   * scale · (q − offset), element by element; a one-entry operand is broadcast, and lists
   * of two other different lengths make the tensor operation fail.
   */
  function Bound(scale: seq<real>, offset: seq<int>, q: int): (r: Result<seq<real>>)
    ensures r.Ok? <==> |scale| == |offset| || |scale| == 1 || |offset| == 1
    ensures r.Fail? ==> r.error == RuntimeError
    ensures r.Ok? ==> |r.value| == (if |scale| == |offset| || |offset| == 1 then |scale| else |offset|)
    ensures r.Ok? ==> forall k :: 0 <= k < |r.value| ==> r.value[k] == At(scale, k) * (q - At(offset, k)) as real
  {
    if |scale| == |offset| || |offset| == 1 then Ok(seq(|scale|, k requires 0 <= k < |scale| => At(scale, k) * (q - At(offset, k)) as real))
    else if |scale| == 1 then Ok(seq(|offset|, k requires 0 <= k < |offset| => At(scale, k) * (q - At(offset, k)) as real))
    else Fail(RuntimeError)
  }

  /** The entry of a configuration: max = scale·(quant_max − offset), min = scale·(quant_min − offset). */
  function Entry(c: QuantConfig): (r: Result<Encoding>)
    ensures r.Ok? <==> Bound(c.scale, c.offset, c.quantMax).Ok?
    ensures r.Ok? ==> r.value == Encoding(c.numOfBits, Bound(c.scale, c.offset, c.quantMax).value,
      Bound(c.scale, c.offset, c.quantMin).value, c.offset, c.scale)
  {
    var max := Bound(c.scale, c.offset, c.quantMax);
    if max.Fail? then Fail(max.error)
    else Ok(Encoding(c.numOfBits, max.value, Bound(c.scale, c.offset, c.quantMin).value, c.offset, c.scale))
  }

  /** Whether a configuration that can be exported writes an entry at all. */
  predicate Listed(c: QuantConfig) {
    c.visibility != Internal && c.state != Fp32 && c.state != Soi
  }

  /** One iteration of the inner loop. */
  function Visit(e: Encodings, p: Pair): Result<Encodings> {
    var (c, v) := p;
    if !StateCanExport(c.state) then Fail(PermissionError)
    else if !Listed(c) then Ok(e)
    else if c.state == Passive && v.name in e.activationEncodings then Ok(e)
    else
      var info :- Entry(c);
      if v.isParameter then Ok(e.(paramEncodings := e.paramEncodings[v.name := info]))
      else Ok(e.(activationEncodings := e.activationEncodings[v.name := info]))
  }

  /** The pairs the loops visit: those of each quantable operation, in order. */
  function Pairs(order: seq<OpView>): seq<Pair> {
    if |order| == 0 then []
    else
      var op := order[|order| - 1];
      Pairs(order[..|order| - 1]) + (if op.config.Some? then ConfigWithVariable(op) else [])
  }

  /** The maps after visiting a list of pairs from the maps `e`, or the first error raised. */
  function Resume(e: Encodings, ps: seq<Pair>): Result<Encodings> {
    if |ps| == 0 then Ok(e)
    else
      var e' :- Resume(e, ps[..|ps| - 1]);
      Visit(e', ps[|ps| - 1])
  }

  /** The maps after visiting a list of pairs from empty maps. */
  function Encode(ps: seq<Pair>): Result<Encodings> {
    Resume(Encodings(map[], map[]), ps)
  }

  /** The exporter's result for an order of operations. */
  function Export(order: seq<OpView>): Result<Encodings> {
    Encode(Pairs(order))
  }

  // ---------------------------------------------------------------------------------
  // The exporter's loops.

  lemma {:induction false} PairsConcat(a: seq<OpView>, b: seq<OpView>)
    ensures Pairs(a + b) == Pairs(a) + Pairs(b)
    decreases |b|
  {
    if |b| > 0 {
      var ab := a + b;
      assert ab[..|ab| - 1] == a + b[..|b| - 1];
      assert ab[|ab| - 1] == b[|b| - 1];
      PairsConcat(a, b[..|b| - 1]);
    } else {
      assert a + b == a;
    }
  }

  /** Visiting two lists is visiting the first, then the second from where the first left off. */
  lemma {:induction false} ResumeConcat(e: Encodings, ps: seq<Pair>, qs: seq<Pair>)
    ensures Resume(e, ps + qs) == if Resume(e, ps).Fail? then Resume(e, ps) else Resume(Resume(e, ps).value, qs)
    decreases |qs|
  {
    if |qs| > 0 {
      assert (ps + qs)[..|ps + qs| - 1] == ps + qs[..|qs| - 1];
      ResumeConcat(e, ps, qs[..|qs| - 1]);
    } else {
      assert ps + qs == ps;
    }
  }

  /** The pairs of the first `i + 1` operations: those of the first `i`, then those of operation `i`. */
  lemma PairsStep(order: seq<OpView>, i: nat)
    requires i < |order|
    ensures order[i].config.None? ==> Pairs(order[..i + 1]) == Pairs(order[..i])
    ensures order[i].config.Some? ==> Pairs(order[..i + 1]) == Pairs(order[..i]) + ConfigWithVariable(order[i])
  {
    assert order[..i + 1][..i] == order[..i];
    assert Pairs(order[..i]) + [] == Pairs(order[..i]);
  }

  /** An error raised after the first `n` operations is the result of the whole export. */
  lemma FailureIsFinal(order: seq<OpView>, n: nat)
    requires n <= |order| && Encode(Pairs(order[..n])).Fail?
    ensures Export(order) == Encode(Pairs(order[..n]))
  {
    PairsConcat(order[..n], order[n..]);
    assert order[..n] + order[n..] == order;
    ResumeConcat(Encodings(map[], map[]), Pairs(order[..n]), Pairs(order[n..]));
  }

  /** The inner loop, over the pairs of one quantable operation. */
  method VisitPairs(activationInfo: map<string, Encoding>, paramInfo: map<string, Encoding>, pairs: seq<Pair>)
    returns (res: Result<Encodings>)
    ensures res == Resume(Encodings(activationInfo, paramInfo), pairs)
  {
    ghost var start := Encodings(activationInfo, paramInfo);
    var activationInfo, paramInfo := activationInfo, paramInfo;
    var j := 0;
    while j < |pairs|
      invariant j <= |pairs|
      invariant Resume(start, pairs[..j]) == Ok(Encodings(activationInfo, paramInfo))
    {
      var (config, v) := pairs[j];
      assert pairs[..j + 1][..j] == pairs[..j];
      if !StateCanExport(config.state) {
        ResumeConcat(start, pairs[..j + 1], pairs[j + 1..]);
        assert pairs[..j + 1] + pairs[j + 1..] == pairs;
        return Fail(PermissionError);
      }
      if config.visibility == Internal || config.state == Fp32 || config.state == Soi
        || (config.state == Passive && v.name in activationInfo)
      {
        j := j + 1;
        continue;
      }
      var info := Entry(config);
      if info.Fail? {
        ResumeConcat(start, pairs[..j + 1], pairs[j + 1..]);
        assert pairs[..j + 1] + pairs[j + 1..] == pairs;
        return Fail(info.error);
      }
      if v.isParameter {
        paramInfo := paramInfo[v.name := info.value];
      } else {
        activationInfo := activationInfo[v.name := info.value];
      }
      j := j + 1;
    }
    assert pairs[..|pairs|] == pairs;
    res := Ok(Encodings(activationInfo, paramInfo));
  }

  /** The outer loop, over the operations in topological order. */
  method ExportQuantizationConfig(order: seq<OpView>) returns (res: Result<Encodings>)
    ensures res == Export(order)
  {
    var activationInfo: map<string, Encoding> := map[];
    var paramInfo: map<string, Encoding> := map[];
    var i := 0;
    while i < |order|
      invariant i <= |order|
      invariant Encode(Pairs(order[..i])) == Ok(Encodings(activationInfo, paramInfo))
    {
      var operation := order[i];
      PairsStep(order, i);
      if operation.config.None? {
        i := i + 1;
        continue;
      }
      var pairs := ConfigWithVariable(operation);
      ResumeConcat(Encodings(map[], map[]), Pairs(order[..i]), pairs);
      var visited := VisitPairs(activationInfo, paramInfo, pairs);
      if visited.Fail? {
        FailureIsFinal(order, i + 1);
        return visited;
      }
      activationInfo, paramInfo := visited.value.activationEncodings, visited.value.paramEncodings;
      i := i + 1;
    }
    assert order[..|order|] == order;
    res := Ok(Encodings(activationInfo, paramInfo));
  }

  // ---------------------------------------------------------------------------------
  // When the export fails.

  /** Whether a configuration's scale and offset lists combine. */
  predicate Shaped(c: QuantConfig) {
    |c.scale| == |c.offset| || |c.scale| == 1 || |c.offset| == 1
  }

  /**
   * When every configuration's scales and offsets combine, the export fails exactly when
   * some configuration's state cannot be exported, INTERNAL ones included, and then with
   * PermissionError.
   */
  lemma {:induction false} PermissionErrorExactly(ps: seq<Pair>)
    requires forall k :: 0 <= k < |ps| ==> Shaped(ps[k].0)
    ensures Encode(ps).Fail? <==> exists k :: 0 <= k < |ps| && !StateCanExport(ps[k].0.state)
    ensures Encode(ps).Fail? ==> Encode(ps).error == PermissionError
    decreases |ps|
  {
    if |ps| > 0 {
      var init := ps[..|ps| - 1];
      PermissionErrorExactly(init);
      assert forall k :: 0 <= k < |init| ==> init[k] == ps[k];
      if Encode(init).Ok? && StateCanExport(ps[|ps| - 1].0.state) {
        assert forall k :: 0 <= k < |ps| && !StateCanExport(ps[k].0.state) ==> k < |init|;
      }
    }
  }

  // ---------------------------------------------------------------------------------
  // Which names get entries, and which entry.

  /** Whether the pair at `j` would write an activation entry for `k`. */
  predicate ActWriter(ps: seq<Pair>, j: nat, k: string)
    requires j < |ps|
  {
    Listed(ps[j].0) && !ps[j].1.isParameter && ps[j].1.name == k
  }

  /** Whether the pair at `j` would write a parameter entry for `k`. */
  predicate ParamWriter(ps: seq<Pair>, j: nat, k: string)
    requires j < |ps|
  {
    Listed(ps[j].0) && ps[j].1.isParameter && ps[j].1.name == k
  }

  /** Whether the pair at `j` writes an activation entry for `k` even when one exists. */
  predicate Overwriter(ps: seq<Pair>, j: nat, k: string)
    requires j < |ps|
  {
    ActWriter(ps, j, k) && ps[j].0.state != Passive
  }

  /** One iteration writes at most the name of its variable, into the map its variable selects. */
  lemma VisitEffect(e: Encodings, ps: seq<Pair>, j: nat)
    requires j < |ps| && Visit(e, ps[j]).Ok?
    ensures var r := Visit(e, ps[j]).value;
      && (forall k :: k in r.activationEncodings <==> k in e.activationEncodings || ActWriter(ps, j, k))
      && (forall k :: k in e.activationEncodings && !Overwriter(ps, j, k) ==> r.activationEncodings[k] == e.activationEncodings[k])
      && (forall k :: Overwriter(ps, j, k) || (ActWriter(ps, j, k) && k !in e.activationEncodings)
            ==> Entry(ps[j].0) == Ok(r.activationEncodings[k]))
      && (forall k :: k in r.paramEncodings ==> k in e.paramEncodings || ParamWriter(ps, j, k))
      && (forall k :: k in e.paramEncodings && !ParamWriter(ps, j, k) ==> r.paramEncodings[k] == e.paramEncodings[k])
      && (forall k :: ParamWriter(ps, j, k) && k !in e.activationEncodings
            ==> k in r.paramEncodings && Entry(ps[j].0) == Ok(r.paramEncodings[k]))
  {
  }

  /**
   * The activation map after `n` pairs: a name has an entry exactly when some pair would
   * write it; the entry is that of the last pair that overwrites, and when no pair
   * overwrites (all are PASSIVE), that of the first pair that writes.
   */
  lemma {:induction false} ActivationEntries(ps: seq<Pair>, n: nat)
    requires n <= |ps| && Encode(ps[..n]).Ok?
    ensures var act := Encode(ps[..n]).value.activationEncodings;
      && (forall k :: k in act <==> exists j :: 0 <= j < n && ActWriter(ps, j, k))
      && (forall j, k :: 0 <= j < n && Overwriter(ps, j, k) && (forall i :: j < i < n ==> !Overwriter(ps, i, k))
            ==> Entry(ps[j].0) == Ok(act[k]))
      && (forall j, k :: 0 <= j < n && ActWriter(ps, j, k) && (forall i :: 0 <= i < j ==> !ActWriter(ps, i, k))
            && (forall i :: 0 <= i < n ==> !Overwriter(ps, i, k))
            ==> Entry(ps[j].0) == Ok(act[k]))
    decreases n
  {
    if n > 0 {
      assert ps[..n][..n - 1] == ps[..n - 1];
      ActivationEntries(ps, n - 1);
      var prev := Encode(ps[..n - 1]).value;
      VisitEffect(prev, ps, n - 1);
      var act := Encode(ps[..n]).value.activationEncodings;
      forall k
        ensures k in act <==> exists j :: 0 <= j < n && ActWriter(ps, j, k)
      {
        if ActWriter(ps, n - 1, k) {
          assert k in act;
        }
      }
      forall j, k | 0 <= j < n && Overwriter(ps, j, k) && (forall i :: j < i < n ==> !Overwriter(ps, i, k))
        ensures Entry(ps[j].0) == Ok(act[k])
      {
        if j < n - 1 {
          assert !Overwriter(ps, n - 1, k);
          assert forall i :: j < i < n - 1 ==> !Overwriter(ps, i, k);
          assert k in prev.activationEncodings;
          assert act[k] == prev.activationEncodings[k];
        }
      }
      forall j, k | 0 <= j < n && ActWriter(ps, j, k) && (forall i :: 0 <= i < j ==> !ActWriter(ps, i, k))
          && (forall i :: 0 <= i < n ==> !Overwriter(ps, i, k))
        ensures Entry(ps[j].0) == Ok(act[k])
      {
        assert !Overwriter(ps, n - 1, k);
        if j < n - 1 {
          assert forall i :: 0 <= i < n - 1 ==> !Overwriter(ps, i, k);
          assert k in prev.activationEncodings;
          assert act[k] == prev.activationEncodings[k];
        } else {
          assert k !in prev.activationEncodings;
        }
      }
    }
  }

  /**
   * The parameter map after `n` pairs: a name has an entry only when some pair would write
   * it, and when no activation pair shares the name, exactly then, with the entry of the
   * last such pair.
   */
  lemma {:induction false} ParamEntries(ps: seq<Pair>, n: nat, k: string)
    requires n <= |ps| && Encode(ps[..n]).Ok?
    ensures var param := Encode(ps[..n]).value.paramEncodings;
      && (k in param ==> exists j :: 0 <= j < n && ParamWriter(ps, j, k))
      && ((forall i :: 0 <= i < n ==> !ActWriter(ps, i, k)) ==>
            && (k in param <==> exists j :: 0 <= j < n && ParamWriter(ps, j, k))
            && forall j :: 0 <= j < n && ParamWriter(ps, j, k) && (forall i :: j < i < n ==> !ParamWriter(ps, i, k))
                 ==> Entry(ps[j].0) == Ok(param[k]))
    decreases n
  {
    if n > 0 {
      assert ps[..n][..n - 1] == ps[..n - 1];
      ParamEntries(ps, n - 1, k);
      var prev := Encode(ps[..n - 1]).value;
      VisitEffect(prev, ps, n - 1);
      var param := Encode(ps[..n]).value.paramEncodings;
      if k in param && !ParamWriter(ps, n - 1, k) {
        assert k in prev.paramEncodings;
      }
      if forall i :: 0 <= i < n ==> !ActWriter(ps, i, k) {
        assert k !in prev.activationEncodings by {
          ActivationEntries(ps, n - 1);
        }
        if ParamWriter(ps, n - 1, k) {
          assert k in param && Entry(ps[n - 1].0) == Ok(param[k]);
        } else if k in prev.paramEncodings {
          assert param[k] == prev.paramEncodings[k];
        }
        forall j | 0 <= j < n && ParamWriter(ps, j, k) && (forall i :: j < i < n ==> !ParamWriter(ps, i, k))
          ensures Entry(ps[j].0) == Ok(param[k])
        {
          if j < n - 1 {
            assert !ParamWriter(ps, n - 1, k);
            assert forall i :: j < i < n - 1 ==> !ParamWriter(ps, i, k);
          }
        }
      }
    }
  }

  /**
   * The exported activation map: a name has an entry exactly when some activation pair of
   * that name is listed, and a PASSIVE pair never replaces an entry: the entry is that of
   * the last pair that is not PASSIVE.
   */
  lemma ExportActivationEntries(order: seq<OpView>, k: string)
    requires Export(order).Ok?
    ensures var ps := Pairs(order);
      var act := Export(order).value.activationEncodings;
      && (k in act <==> exists j :: 0 <= j < |ps| && ActWriter(ps, j, k))
      && (forall j :: 0 <= j < |ps| && Overwriter(ps, j, k) && (forall i :: j < i < |ps| ==> !Overwriter(ps, i, k))
            ==> Entry(ps[j].0) == Ok(act[k]))
  {
    var ps := Pairs(order);
    assert ps[..|ps|] == ps;
    ActivationEntries(ps, |ps|);
  }

  /**
   * The exported parameter map: every entry comes from a parameter pair of that name, the
   * last one when no activation pair shares the name.
   */
  lemma ExportParamEntries(order: seq<OpView>, k: string)
    requires Export(order).Ok?
    ensures var ps := Pairs(order);
      var param := Export(order).value.paramEncodings;
      && (k in param ==> exists j :: 0 <= j < |ps| && ParamWriter(ps, j, k))
      && ((forall i :: 0 <= i < |ps| ==> !ActWriter(ps, i, k)) ==>
            forall j :: 0 <= j < |ps| && ParamWriter(ps, j, k) && (forall i :: j < i < |ps| ==> !ParamWriter(ps, i, k))
              ==> k in param && Entry(ps[j].0) == Ok(param[k]))
  {
    var ps := Pairs(order);
    assert ps[..|ps|] == ps;
    ParamEntries(ps, |ps|, k);
    var param := Export(order).value.paramEncodings;
    if forall i :: 0 <= i < |ps| ==> !ActWriter(ps, i, k) {
      forall j | 0 <= j < |ps| && ParamWriter(ps, j, k) && (forall i :: j < i < |ps| ==> !ParamWriter(ps, i, k))
        ensures k in param
      {
        assert exists j' :: 0 <= j' < |ps| && ParamWriter(ps, j', k);
      }
    }
  }
}
