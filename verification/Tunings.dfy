/**
 * The tunings of the CUDA variants of REDUCE_SUM: one function lists their names, another
 * finds the one to run by counting through the same nest of loops.
 */
module Tunings {
  import opened Lists

  datatype Variant = BaseCuda | RajaCuda | Other

  datatype Mapping = Direct | OccupancyGridStride

  datatype Algorithm = BlockAtomic | BlockDevice

  /** What a call of the dispatcher can run. */
  datatype Run = RunCub | RunBase(mapping: Mapping, size: nat)
    | RunRaja(algorithm: Algorithm, mapping: Mapping, size: nat)

  /** The lists the loops run over, and the block sizes chosen on the command line. */
  datatype Space = Space(sizes: seq<nat>, chosen: seq<nat>, mappings: seq<Mapping>, algorithms: seq<Algorithm>)

  function MappingName(m: Mapping): string {
    match m
    case Direct => "direct"
    case OccupancyGridStride => "occgs"
  }

  function AlgorithmName(a: Algorithm): string {
    match a
    case BlockAtomic => "blkatm"
    case BlockDevice => "blkdev"
  }

  function Digit(d: nat): char
    requires d < 10
  {
    '0' + d as char
  }

  function Decimal(n: nat): (s: string)
    ensures |s| >= 1
  {
    if n < 10 then [Digit(n)] else Decimal(n / 10) + [Digit(n % 10)]
  }

  /** The number a string of digits denotes. */
  function Value(s: string): int {
    if |s| == 0 then 0 else 10 * Value(s[..|s| - 1]) + (s[|s| - 1] as int - '0' as int)
  }

  /** The digits of n denote n, and do not start with a zero unless n is zero. */
  lemma {:induction false} DecimalValue(n: nat)
    ensures Value(Decimal(n)) == n && (forall i | 0 <= i < |Decimal(n)| :: '0' <= Decimal(n)[i] <= '9')
    ensures n > 0 ==> Decimal(n)[0] != '0'
  {
    var s := Decimal(n);
    if n < 10 {
      assert s[..0] == [];
    } else {
      DecimalValue(n / 10);
      assert s[..|s| - 1] == Decimal(n / 10) && s[|s| - 1] == Digit(n % 10);
    }
  }

  function TuningName(r: Run): string {
    match r
    case RunCub => "cub"
    case RunBase(m, size) => AlgorithmName(BlockAtomic) + "_" + MappingName(m) + "_" + Decimal(size)
    case RunRaja(a, m, size) => AlgorithmName(a) + "_" + MappingName(m) + "_" + Decimal(size)
  }

  /** Two names spelled out; they use every part there is. */
  lemma NameExamples()
    ensures TuningName(RunBase(Direct, 256)) == "blkatm_direct_256"
    ensures TuningName(RunRaja(BlockDevice, OccupancyGridStride, 64)) == "blkdev_occgs_64"
  {
    assert Decimal(25) == "25" && Decimal(256) == "256" && Decimal(64) == "64";
  }

  lemma {:induction false} DecimalInjective(n: nat, m: nat)
    requires Decimal(n) == Decimal(m)
    ensures n == m
    decreases n
  {
    var s, t := Decimal(n), Decimal(m);
    if n >= 10 && m >= 10 {
      assert s[..|s| - 1] == Decimal(n / 10) && t[..|t| - 1] == Decimal(m / 10);
      DecimalInjective(n / 10, m / 10);
      assert s[|s| - 1] == Digit(n % 10) && t[|t| - 1] == Digit(m % 10);
    } else if n < 10 && m < 10 {
      assert s[0] == Digit(n) && t[0] == Digit(m);
    }
  }

  /** Two tunings of one variant have the same name only when they are the same. */
  lemma NameInjective(r: Run, r': Run)
    requires TuningName(r) == TuningName(r') && !(r.RunBase? && r'.RunRaja?) && !(r.RunRaja? && r'.RunBase?)
    ensures r == r'
  {
    var s := TuningName(r);
    if r.RunCub? || r'.RunCub? {
      assert |"cub"| == 3;
    } else {
      var (a, m) := if r.RunBase? then (BlockAtomic, r.mapping) else (r.algorithm, r.mapping);
      var (a', m') := if r'.RunBase? then (BlockAtomic, r'.mapping) else (r'.algorithm, r'.mapping);
      Parts(a, m, r.size);
      Parts(a', m', r'.size);
      assert s[3] == AlgorithmName(a)[3] == AlgorithmName(a')[3];
      assert s[7] == MappingName(m)[0] == MappingName(m')[0];
      DecimalInjective(r.size, r'.size);
    }
  }

  lemma Parts(a: Algorithm, m: Mapping, size: nat)
    ensures var s := AlgorithmName(a) + "_" + MappingName(m) + "_" + Decimal(size);
            && |s| > 8 + |MappingName(m)| && |MappingName(m)| >= 1 && |AlgorithmName(a)| == 6
            && s[3] == AlgorithmName(a)[3] && s[7] == MappingName(m)[0] && s[8 + |MappingName(m)|..] == Decimal(size)
  {
  }

  /** An empty list of chosen sizes accepts every size. */
  predicate Accepts(chosen: seq<nat>, size: nat) {
    |chosen| == 0 || size in chosen
  }

  // ---- the nest of loops, as a list ------------------------------------------------------

  function ForAlgorithm(m: Mapping, size: nat): Algorithm -> seq<Run> {
    a => [RunRaja(a, m, size)]
  }

  function ForMapping(s: Space, v: Variant, size: nat): Mapping -> seq<Run> {
    m =>
      match v
      case BaseCuda => [RunBase(m, size)]
      case RajaCuda => Joined(ForAlgorithm(m, size), s.algorithms, |s.algorithms|)
      case Other => []
  }

  function ForSize(s: Space, v: Variant): nat -> seq<Run> {
    (size: nat) => if Accepts(s.chosen, size) then Joined(ForMapping(s, v, size), s.mappings, |s.mappings|) else []
  }

  function ForSizes(s: Space, v: Variant): seq<Run> {
    Joined(ForSize(s, v), s.sizes, |s.sizes|)
  }

  /** Every tuning of a variant, in order. */
  function Runs(s: Space, v: Variant): seq<Run> {
    (if v == BaseCuda then [RunCub] else []) + ForSizes(s, v)
  }

  function NamesOf(runs: seq<Run>): seq<string> {
    seq(|runs|, i requires 0 <= i < |runs| => TuningName(runs[i]))
  }

  // ---- which runs there are ----------------------------------------------------------------

  /** A run the lists, the filter and the variant allow. */
  predicate Offered(s: Space, v: Variant, r: Run) {
    match r
    case RunCub => v == BaseCuda
    case RunBase(m, size) => v == BaseCuda && m in s.mappings && size in s.sizes && Accepts(s.chosen, size)
    case RunRaja(a, m, size) =>
      v == RajaCuda && a in s.algorithms && m in s.mappings && size in s.sizes && Accepts(s.chosen, size)
  }

  lemma MappingMembers(s: Space, v: Variant, size: nat, m: Mapping, r: Run)
    ensures r in ForMapping(s, v, size)(m) <==>
            || (v == BaseCuda && r == RunBase(m, size))
            || (v == RajaCuda && r.RunRaja? && r == RunRaja(r.algorithm, m, size) && r.algorithm in s.algorithms)
  {
    JoinedMembers(ForAlgorithm(m, size), s.algorithms, |s.algorithms|, r);
  }

  lemma SizeMembers(s: Space, v: Variant, size: nat, r: Run)
    requires size in s.sizes
    ensures r in ForSize(s, v)(size) <==> !r.RunCub? && r.size == size && Offered(s, v, r)
  {
    JoinedMembers(ForMapping(s, v, size), s.mappings, |s.mappings|, r);
    forall i | 0 <= i < |s.mappings|
      ensures r in ForMapping(s, v, size)(s.mappings[i]) <==>
              || (v == BaseCuda && r == RunBase(s.mappings[i], size))
              || (v == RajaCuda && r.RunRaja? && r == RunRaja(r.algorithm, s.mappings[i], size)
                  && r.algorithm in s.algorithms)
    {
      MappingMembers(s, v, size, s.mappings[i], r);
    }
  }

  lemma SizesMembers(s: Space, v: Variant, r: Run)
    ensures r in ForSizes(s, v) <==> !r.RunCub? && Offered(s, v, r)
  {
    JoinedMembers(ForSize(s, v), s.sizes, |s.sizes|, r);
    forall i | 0 <= i < |s.sizes|
      ensures r in ForSize(s, v)(s.sizes[i]) <==> !r.RunCub? && r.size == s.sizes[i] && Offered(s, v, r)
    {
      SizeMembers(s, v, s.sizes[i], r);
    }
  }

  /** The tunings of a variant are exactly the allowed ones. */
  lemma RunsAreOffered(s: Space, v: Variant, r: Run)
    ensures r in Runs(s, v) <==> Offered(s, v, r)
  {
    SizesMembers(s, v, r);
  }

  lemma NoRuns(s: Space)
    ensures Runs(s, Other) == []
  {
    if Runs(s, Other) != [] { RunsAreOffered(s, Other, Runs(s, Other)[0]); }
  }

  lemma MappingDistinct(s: Space, v: Variant, size: nat, m: Mapping)
    requires Distinct(s.algorithms)
    ensures Distinct(ForMapping(s, v, size)(m))
  {
    JoinedDistinct(ForAlgorithm(m, size), s.algorithms, |s.algorithms|);
  }

  lemma SizeDistinct(s: Space, v: Variant, size: nat)
    requires Distinct(s.mappings) && Distinct(s.algorithms)
    ensures Distinct(ForSize(s, v)(size))
  {
    var f := ForMapping(s, v, size);
    forall m | m in s.mappings ensures Distinct(f(m)) { MappingDistinct(s, v, size, m); }
    forall m, m', r | m in s.mappings && m' in s.mappings && r in f(m) && r in f(m') ensures m == m' {
      MappingMembers(s, v, size, m, r);
      MappingMembers(s, v, size, m', r);
    }
    JoinedDistinct(f, s.mappings, |s.mappings|);
  }

  lemma SizesDistinct(s: Space, v: Variant)
    requires Distinct(s.sizes) && Distinct(s.mappings) && Distinct(s.algorithms)
    ensures Distinct(ForSizes(s, v))
  {
    var f := ForSize(s, v);
    forall size | size in s.sizes ensures Distinct(f(size)) { SizeDistinct(s, v, size); }
    forall n, n', r | n in s.sizes && n' in s.sizes && r in f(n) && r in f(n') ensures n == n' {
      SizeMembers(s, v, n, r);
      SizeMembers(s, v, n', r);
    }
    JoinedDistinct(f, s.sizes, |s.sizes|);
  }

  /** With lists free of repetitions no two tunings of a variant share a name: a name stands at one index. */
  lemma NamesDistinct(s: Space, v: Variant)
    requires Distinct(s.sizes) && Distinct(s.mappings) && Distinct(s.algorithms)
    ensures Distinct(NamesOf(Runs(s, v)))
  {
    var runs := Runs(s, v);
    SizesDistinct(s, v);
    SizesMembers(s, v, RunCub);
    JoinDistinct(if v == BaseCuda then [RunCub] else [], ForSizes(s, v));
    forall i, j | 0 <= i < j < |runs| ensures TuningName(runs[i]) != TuningName(runs[j]) {
      RunsAreOffered(s, v, runs[i]);
      RunsAreOffered(s, v, runs[j]);
      if TuningName(runs[i]) == TuningName(runs[j]) { NameInjective(runs[i], runs[j]); }
    }
  }

  // ---- listing the names -------------------------------------------------------------------

  method DefineTunings(s: Space, v: Variant) returns (names: seq<string>)
    ensures names == NamesOf(Runs(s, v))
  {
    names := [];
    ghost var first: seq<Run> := [];
    if v == BaseCuda {
      names := names + ["cub"];
      first := [RunCub];
    }
    if v == BaseCuda || v == RajaCuda {
      names := NameSizes(s, v, names, first);
    } else {
      NoRuns(s);
    }
  }

  method NameSizes(s: Space, v: Variant, before: seq<string>, ghost done: seq<Run>) returns (names: seq<string>)
    requires v != Other && before == NamesOf(done)
    ensures names == NamesOf(done + ForSizes(s, v))
  {
    names := before;
    assert done + [] == done;
    for i := 0 to |s.sizes|
      invariant names == NamesOf(done + Joined(ForSize(s, v), s.sizes, i))
    {
      NextTurn(done, ForSize(s, v), s.sizes, i);
      names := NameSize(s, v, s.sizes[i], names, done + Joined(ForSize(s, v), s.sizes, i));
    }
  }

  /** One turn of the outer loop: a size the filter refuses has no names. */
  method NameSize(s: Space, v: Variant, size: nat, before: seq<string>, ghost done: seq<Run>)
    returns (names: seq<string>)
    requires v != Other && before == NamesOf(done)
    ensures names == NamesOf(done + ForSize(s, v)(size))
  {
    names := before;
    if |s.chosen| == 0 || size in s.chosen {
      names := NameMappings(s, v, size, before, done);
    } else {
      assert done + [] == done;
    }
  }

  method NameMappings(s: Space, v: Variant, size: nat, before: seq<string>, ghost done: seq<Run>)
    returns (names: seq<string>)
    requires v != Other && before == NamesOf(done)
    ensures names == NamesOf(done + Joined(ForMapping(s, v, size), s.mappings, |s.mappings|))
  {
    names := before;
    assert done + [] == done;
    for j := 0 to |s.mappings|
      invariant names == NamesOf(done + Joined(ForMapping(s, v, size), s.mappings, j))
    {
      var m := s.mappings[j];
      NextTurn(done, ForMapping(s, v, size), s.mappings, j);
      if v == BaseCuda {
        names := names + [AlgorithmName(BlockAtomic) + "_" + MappingName(m) + "_" + Decimal(size)];
      } else {
        names := NameAlgorithms(s, m, size, names, done + Joined(ForMapping(s, v, size), s.mappings, j));
      }
    }
  }

  method NameAlgorithms(s: Space, m: Mapping, size: nat, before: seq<string>, ghost done: seq<Run>)
    returns (names: seq<string>)
    requires before == NamesOf(done)
    ensures names == NamesOf(done + Joined(ForAlgorithm(m, size), s.algorithms, |s.algorithms|))
  {
    names := before;
    assert done + [] == done;
    for k := 0 to |s.algorithms|
      invariant names == NamesOf(done + Joined(ForAlgorithm(m, size), s.algorithms, k))
    {
      NextTurn(done, ForAlgorithm(m, size), s.algorithms, k);
      names := names + [AlgorithmName(s.algorithms[k]) + "_" + MappingName(m) + "_" + Decimal(size)];
    }
  }

  // ---- running one ---------------------------------------------------------------------------

  /** What a count through `runs` runs when it looks for entry idx. */
  function Picked(runs: seq<Run>, idx: nat): seq<Run> {
    if idx < |runs| then [runs[idx]] else []
  }

  /** The innermost test: run r if the count has come to idx, and count on. */
  method Offer(r: Run, idx: nat, t0: nat, ran0: seq<Run>, ghost done: seq<Run>) returns (t: nat, ran: seq<Run>)
    requires t0 == |done| && ran0 == Picked(done, idx)
    ensures t == |done + [r]| && ran == Picked(done + [r], idx)
  {
    t, ran := t0, ran0;
    if idx == t {
      ran := ran + [r];
    }
    t := t + 1;
  }

  /**
   * The dispatcher runs exactly the tuning whose name stands at the index, and nothing
   * when there is none.
   */
  method RunVariant(s: Space, v: Variant, idx: nat) returns (ran: seq<Run>)
    ensures idx < |Runs(s, v)| ==>
              |ran| == 1 && ran[0] == Runs(s, v)[idx] && TuningName(ran[0]) == NamesOf(Runs(s, v))[idx]
    ensures idx >= |Runs(s, v)| ==> ran == []
  {
    var t := 0;
    ran := [];
    ghost var first: seq<Run> := [];
    if v == BaseCuda {
      t, ran := Offer(RunCub, idx, t, ran, []);
      first := [] + [RunCub];
    }
    if v == BaseCuda || v == RajaCuda {
      t, ran := RunSizes(s, v, idx, t, ran, first);
    } else {
      NoRuns(s);
    }
    assert ran == Picked(Runs(s, v), idx);
  }

  method RunSizes(s: Space, v: Variant, idx: nat, t0: nat, ran0: seq<Run>, ghost done: seq<Run>)
    returns (t: nat, ran: seq<Run>)
    requires v != Other && t0 == |done| && ran0 == Picked(done, idx)
    ensures t == |done + ForSizes(s, v)| && ran == Picked(done + ForSizes(s, v), idx)
  {
    t, ran := t0, ran0;
    assert done + [] == done;
    for i := 0 to |s.sizes|
      invariant t == |done + Joined(ForSize(s, v), s.sizes, i)|
      invariant ran == Picked(done + Joined(ForSize(s, v), s.sizes, i), idx)
    {
      NextTurn(done, ForSize(s, v), s.sizes, i);
      t, ran := RunSize(s, v, idx, s.sizes[i], t, ran, done + Joined(ForSize(s, v), s.sizes, i));
    }
  }

  method RunSize(s: Space, v: Variant, idx: nat, size: nat, t0: nat, ran0: seq<Run>, ghost done: seq<Run>)
    returns (t: nat, ran: seq<Run>)
    requires v != Other && t0 == |done| && ran0 == Picked(done, idx)
    ensures var passed := done + ForSize(s, v)(size); t == |passed| && ran == Picked(passed, idx)
  {
    t, ran := t0, ran0;
    if |s.chosen| == 0 || size in s.chosen {
      t, ran := RunMappings(s, v, idx, size, t, ran, done);
    } else {
      assert done + [] == done;
    }
  }

  method RunMappings(s: Space, v: Variant, idx: nat, size: nat, t0: nat, ran0: seq<Run>, ghost done: seq<Run>)
    returns (t: nat, ran: seq<Run>)
    requires v != Other && t0 == |done| && ran0 == Picked(done, idx)
    ensures var passed := done + Joined(ForMapping(s, v, size), s.mappings, |s.mappings|);
            t == |passed| && ran == Picked(passed, idx)
  {
    t, ran := t0, ran0;
    assert done + [] == done;
    for j := 0 to |s.mappings|
      invariant t == |done + Joined(ForMapping(s, v, size), s.mappings, j)|
      invariant ran == Picked(done + Joined(ForMapping(s, v, size), s.mappings, j), idx)
    {
      var m := s.mappings[j];
      NextTurn(done, ForMapping(s, v, size), s.mappings, j);
      ghost var passed := done + Joined(ForMapping(s, v, size), s.mappings, j);
      if v == BaseCuda {
        t, ran := Offer(RunBase(m, size), idx, t, ran, passed);
      } else {
        t, ran := RunAlgorithms(s, idx, m, size, t, ran, passed);
      }
    }
  }

  method RunAlgorithms(s: Space, idx: nat, m: Mapping, size: nat, t0: nat, ran0: seq<Run>, ghost done: seq<Run>)
    returns (t: nat, ran: seq<Run>)
    requires t0 == |done| && ran0 == Picked(done, idx)
    ensures var passed := done + Joined(ForAlgorithm(m, size), s.algorithms, |s.algorithms|);
            t == |passed| && ran == Picked(passed, idx)
  {
    t, ran := t0, ran0;
    assert done + [] == done;
    for k := 0 to |s.algorithms|
      invariant t == |done + Joined(ForAlgorithm(m, size), s.algorithms, k)|
      invariant ran == Picked(done + Joined(ForAlgorithm(m, size), s.algorithms, k), idx)
    {
      NextTurn(done, ForAlgorithm(m, size), s.algorithms, k);
      t, ran := Offer(RunRaja(s.algorithms[k], m, size), idx, t, ran,
                      done + Joined(ForAlgorithm(m, size), s.algorithms, k));
    }
  }
}
