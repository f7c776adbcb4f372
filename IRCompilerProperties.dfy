/** What `compile` keeps of its input: which declaration wins for each name, the order the
    functions are written in, the stubs for the reserved names, and the wrapper. */
module IRCompilerProperties {
  import opened Outcomes
  import opened Sequences
  import opened Ir
  import opened IRCompiler
  import Parser

  /** The names of the declarations of `ir`, in order, repeats included. */
  function DeclNames(ir: seq<IrNode>): seq<string>
    decreases |ir|
  {
    if ir == [] then []
    else
      var front := DeclNames(ir[..|ir| - 1]);
      var last := ir[|ir| - 1];
      if last.FunctionDecl? then front + [last.name] else front
  }

  /** The declarations of `ir` named `name`, in order. */
  function Named(ir: seq<IrNode>, name: string): (ds: seq<IrNode>)
    ensures forall i :: 0 <= i < |ds| ==> ds[i].FunctionDecl? && ds[i].name == name
    decreases |ir|
  {
    if ir == [] then []
    else
      var front := Named(ir[..|ir| - 1], name);
      var last := ir[|ir| - 1];
      if last.FunctionDecl? && last.name == name then front + [last] else front
  }

  function FirstWithBody(ds: seq<IrNode>): (r: Option<IrNode>)
    ensures r.Some? ==> HasBody(r.value) && r.value in ds
  {
    if ds == [] then None else if HasBody(ds[0]) then Some(ds[0]) else FirstWithBody(ds[1..])
  }

  /** The declaration that wins among `ds`: the first with a non-empty body, or the first
      one when none has a body. */
  function Chosen(ds: seq<IrNode>): IrNode
    requires ds != []
  {
    if FirstWithBody(ds).Some? then FirstWithBody(ds).value else ds[0]
  }

  lemma {:induction false} FirstWithBodySnoc(ds: seq<IrNode>, x: IrNode)
    ensures FirstWithBody(ds + [x]) ==
      if FirstWithBody(ds).Some? then FirstWithBody(ds) else if HasBody(x) then Some(x) else None
  {
    if ds != [] {
      assert (ds + [x])[1..] == ds[1..] + [x];
      FirstWithBodySnoc(ds[1..], x);
    }
  }

  /** When no declaration has a body, the first one wins and has none. */
  lemma ChosenWithoutBody(ds: seq<IrNode>)
    requires ds != [] && FirstWithBody(ds).None?
    ensures !HasBody(Chosen(ds))
  {
  }

  /** The bucketing loop keeps, for each declared name, the chosen declaration. */
  lemma {:induction false} BucketChooses(ir: seq<IrNode>, name: string)
    ensures name in Bucket(ir).functions <==> Named(ir, name) != []
    ensures name in Bucket(ir).functions ==> Bucket(ir).functions[name] == Chosen(Named(ir, name))
    decreases |ir|
  {
    if ir != [] {
      var front := ir[..|ir| - 1];
      var x := ir[|ir| - 1];
      BucketChooses(front, name);
      var ds := Named(front, name);
      var b := Bucket(front);
      if x.FunctionDecl? && x.name == name {
        FirstWithBodySnoc(ds, x);
        if name in b.functions {
          if FirstWithBody(ds).None? {
            ChosenWithoutBody(ds);
          }
          assert (ds + [x])[0] == ds[0];
        } else {
          assert ds == [];
          assert [] + [x] == [x];
        }
      }
    }
  }

  /** The table's keys are the declared names in first-occurrence order. */
  lemma {:induction false} BucketOrder(ir: seq<IrNode>)
    ensures Bucket(ir).order == Dedup(DeclNames(ir))
    decreases |ir|
  {
    if ir != [] {
      var front := ir[..|ir| - 1];
      var x := ir[|ir| - 1];
      BucketOrder(front);
      if x.FunctionDecl? {
        DedupSnoc(DeclNames(front), x.name);
        var b := Bucket(front);
        assert x.name in b.functions <==> x.name in b.order;
        DedupMembers(DeclNames(front), x.name);
      }
    }
  }

  lemma DedupMembers(s: seq<string>, x: string)
    ensures x in Dedup(s) <==> x in s
  {
    if x in s {
      var i :| 0 <= i < |s| && s[i] == x;
    }
  }

  /** Adding stubs for `names` extends the key order exactly as deduplicating the
      appended names would. */
  lemma {:induction false} AddStubsOrder(b: Buckets, s: seq<string>, names: seq<string>)
    requires WellFormed(b) && b.order == Dedup(s)
    ensures AddStubs(b, names).order == Dedup(s + names)
    decreases |names|
  {
    if names == [] {
      assert s + names == s;
    } else {
      var init := names[..|names| - 1];
      AddStubsOrder(b, s, init);
      StubStepOrder(AddStubs(b, init), s + init, names[|names| - 1]);
      AppendSnoc(s, names);
    }
  }

  /** One round of the stub loop keeps the key order a deduplication. */
  lemma StubStepOrder(front: Buckets, s: seq<string>, name: string)
    requires WellFormed(front) && front.order == Dedup(s)
    ensures (if name in front.functions then front.order else front.order + [name]) == Dedup(s + [name])
  {
    assert name in front.functions <==> name in front.order;
    DedupMembers(s, name);
    DedupSnoc(s, name);
  }

  /** Stubs go only to names the table lacks; existing entries are kept. */
  lemma {:induction false} AddStubsEntries(b: Buckets, names: seq<string>, name: string)
    requires WellFormed(b)
    ensures name in AddStubs(b, names).functions <==> name in b.functions || name in names
    ensures name in b.functions ==> AddStubs(b, names).functions[name] == b.functions[name]
    ensures name !in b.functions && name in names ==> AddStubs(b, names).functions[name] == Stub(name)
    decreases |names|
  {
    if names != [] {
      var init := names[..|names| - 1];
      AddStubsEntries(b, init, name);
      assert names == init + [names[|names| - 1]];
    }
  }

  /** The functions `compile` writes, in order: every declared name once, in the order of
      first declaration, then each reserved name nobody declared. */
  lemma CollectOrder(ir: seq<IrNode>)
    ensures Collect(ir).order == Dedup(DeclNames(ir) + Parser.ReservedBuiltins)
  {
    BucketOrder(ir);
    AddStubsOrder(Bucket(ir), DeclNames(ir), Parser.ReservedBuiltins);
  }

  /** The declaration written for each name: the chosen one among its declarations, or the
      forwarding stub for a reserved name that was never declared. */
  lemma CollectEntry(ir: seq<IrNode>, name: string)
    requires name in Collect(ir).functions
    ensures Collect(ir).functions[name] ==
      if Named(ir, name) != [] then Chosen(Named(ir, name)) else Stub(name)
  {
    BucketChooses(ir, name);
    AddStubsEntries(Bucket(ir), Parser.ReservedBuiltins, name);
  }

  /** Every one of the ten reserved names is written, declared or not. */
  lemma ReservedAlwaysEmitted(ir: seq<IrNode>, name: string)
    requires name in Parser.ReservedBuiltins
    ensures name in Collect(ir).order
  {
    AddStubsEntries(Bucket(ir), Parser.ReservedBuiltins, name);
  }

  /** With `wrap`, the output is the unwrapped output inside the function wrapper. */
  lemma WrapEncloses(ir: seq<IrNode>)
    ensures CompileText(ir, true) == Prologue + CompileText(ir, false) + Epilogue
  {
    var b := Collect(ir);
    var a, f := AliasLines(b.aliases), FunctionsText(b.order, b.functions);
    var st := if |b.statements| > 0 then StatementsHeader + StatementLines(b.statements) else "";
    var x := Require + a + "\n" + f + st;
    assert CompileText(ir, false) == "" + Require + a + "\n" + f + st + "";
    assert "" + Require == Require;
    assert x + "" == x;
    AppendAssociates(Prologue, Require, a);
    AppendAssociates(Prologue, Require + a, "\n");
    AppendAssociates(Prologue, Require + a + "\n", f);
    AppendAssociates(Prologue, Require + a + "\n" + f, st);
  }
}
