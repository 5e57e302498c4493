/**
 * The opset list the ONNX Runtime exporter writes into the model: the opsets the graph
 * declares, less the default domain and the domains the exporter itself requires, followed
 * by the required ones (required_opsets: ai.onnx version 13).
 */
module OrtExport {
  import opened Failures

  /** An operator-set import: a domain and its version. */
  datatype Opset = Opset(domain: string, version: int)

  /** The default (empty) ONNX domain. */
  const DefaultDomain: string := ""

  /** required_opsets, in dictionary order: per-channel Quantize/Dequantize needs opset 13. */
  const RequiredOpsets: seq<Opset> := [Opset("ai.onnx", 13)]

  /** The domains of a list of opsets. */
  function Domains(xs: seq<Opset>): (r: set<string>)
    ensures forall d :: d in r <==> exists k :: 0 <= k < |xs| && xs[k].domain == d
  {
    set k | 0 <= k < |xs| :: xs[k].domain
  }

  /** Whether a declared opset is left out: the default domain, or a domain the exporter sets itself. */
  predicate Dropped(o: Opset, extra: seq<Opset>) {
    o.domain == DefaultDomain || o.domain in Domains(extra)
  }

  /** The declared opsets that are kept, in their order. */
  function Kept(declared: seq<Opset>, extra: seq<Opset>): (r: seq<Opset>)
    decreases |declared|
  {
    if |declared| == 0 then []
    else
      var last := declared[|declared| - 1];
      Kept(declared[..|declared| - 1], extra) + (if Dropped(last, extra) then [] else [last])
  }

  /**
   * The opset list of the exported model: the kept declared opsets (none when the graph
   * declares no opset attribute), then the required ones.
   */
  function MergeOpsets(declared: Option<seq<Opset>>, extra: seq<Opset>): seq<Opset> {
    (if declared.Some? then Kept(declared.value, extra) else []) + extra
  }

  /** The two loops that build the list. */
  method BuildOpsets(declared: Option<seq<Opset>>, extra: seq<Opset>) returns (opsets: seq<Opset>)
    ensures opsets == MergeOpsets(declared, extra)
  {
    opsets := [];
    if declared.Some? {
      var ds := declared.value;
      var i := 0;
      while i < |ds|
        invariant i <= |ds|
        invariant opsets == Kept(ds[..i], extra)
      {
        assert ds[..i + 1][..i] == ds[..i];
        if !(ds[i].domain in Domains(extra) || ds[i].domain == DefaultDomain) {
          opsets := opsets + [ds[i]];
        }
        i := i + 1;
      }
      assert ds[..|ds|] == ds;
    }
    var j := 0;
    ghost var prefix := opsets;
    while j < |extra|
      invariant j <= |extra|
      invariant opsets == prefix + extra[..j]
    {
      assert extra[..j + 1] == extra[..j] + [extra[j]];
      opsets := opsets + [extra[j]];
      j := j + 1;
    }
    assert extra[..|extra|] == extra;
  }

  // ---------------------------------------------------------------------------------
  // What the list holds.

  /** A declared opset is kept exactly when it is not dropped; the kept ones keep their order. */
  lemma {:induction false} KeptExactly(declared: seq<Opset>, extra: seq<Opset>)
    ensures forall o :: o in Kept(declared, extra) <==> o in declared && !Dropped(o, extra)
    ensures |Kept(declared, extra)| <= |declared|
    decreases |declared|
  {
    if |declared| > 0 {
      var init := declared[..|declared| - 1];
      var last := declared[|declared| - 1];
      KeptExactly(init, extra);
      assert declared == init + [last];
    }
  }

  /**
   * The merged list holds exactly the declared opsets that are not dropped, followed by the
   * required ones, which it ends with.
   */
  lemma MergeOpsetsExactly(declared: Option<seq<Opset>>, extra: seq<Opset>)
    ensures var r := MergeOpsets(declared, extra);
      && |extra| <= |r| && r[|r| - |extra|..] == extra
      && forall o :: o in r <==> o in extra || (declared.Some? && o in declared.value && !Dropped(o, extra))
  {
    if declared.Some? {
      KeptExactly(declared.value, extra);
    }
  }

  /** No merged opset is in the default domain, unless the required list names it. */
  lemma MergeOpsetsNoDefault(declared: Option<seq<Opset>>, extra: seq<Opset>)
    requires DefaultDomain !in Domains(extra)
    ensures forall o :: o in MergeOpsets(declared, extra) ==> o.domain != DefaultDomain
  {
    MergeOpsetsExactly(declared, extra);
  }

  /** The number of opsets of a list in domain `d`. */
  function InDomain(xs: seq<Opset>, d: string): (r: nat)
    ensures r <= |xs|
  {
    if |xs| == 0 then 0 else InDomain(xs[..|xs| - 1], d) + (if xs[|xs| - 1].domain == d then 1 else 0)
  }

  lemma {:induction false} InDomainConcat(xs: seq<Opset>, ys: seq<Opset>, d: string)
    ensures InDomain(xs + ys, d) == InDomain(xs, d) + InDomain(ys, d)
    decreases |ys|
  {
    if |ys| > 0 {
      assert (xs + ys)[..|xs + ys| - 1] == xs + ys[..|ys| - 1];
      assert (xs + ys)[|xs + ys| - 1] == ys[|ys| - 1];
      InDomainConcat(xs, ys[..|ys| - 1], d);
    } else {
      assert xs + ys == xs;
    }
  }

  /** A list with no opset in domain `d` counts none there. */
  lemma {:induction false} InDomainNone(xs: seq<Opset>, d: string)
    requires forall o :: o in xs ==> o.domain != d
    ensures InDomain(xs, d) == 0
    decreases |xs|
  {
    if |xs| > 0 {
      assert forall o :: o in xs[..|xs| - 1] ==> o in xs;
      assert xs[|xs| - 1] in xs;
      InDomainNone(xs[..|xs| - 1], d);
    }
  }

  /**
   * The exported model imports exactly one ai.onnx opset, version 13, and nothing in the
   * default domain, whatever the graph declares.
   */
  lemma ExportedOpsetsOneAiOnnx(declared: Option<seq<Opset>>)
    ensures var r := MergeOpsets(declared, RequiredOpsets);
      && InDomain(r, "ai.onnx") == 1
      && Opset("ai.onnx", 13) in r
      && forall o :: o in r ==> o.domain != DefaultDomain && (o.domain == "ai.onnx" ==> o.version == 13)
  {
    var extra := RequiredOpsets;
    assert Domains(extra) == {"ai.onnx"} by {
      assert extra[0].domain == "ai.onnx";
    }
    MergeOpsetsExactly(declared, extra);
    var kept := if declared.Some? then Kept(declared.value, extra) else [];
    if declared.Some? {
      KeptExactly(declared.value, extra);
    }
    InDomainNone(kept, "ai.onnx");
    InDomainConcat(kept, extra, "ai.onnx");
    assert InDomain(extra, "ai.onnx") == 1 by {
      assert extra[..0] == [];
    }
  }
}
