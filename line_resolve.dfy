/**
 * resolve_line of hb_gpioinfo/gpioinfo.c: the matcher that decides whether a
 * kernel line is one of the lines named on the command line, and records
 * where a request was found.
 *
 * The resolver itself comes from resolver_init, which is not part of this
 * model; here it is a class holding the requests and the `num_found` count.
 */
module LineResolve {
  import opened Wrappers

  /**
   * One request of the resolver: the id given on the command line, whether it
   * has been found, and the offset and chip index it was found at.
   */
  datatype ResolvedLine = ResolvedLine(id: string, resolved: bool, offset: nat, chipNum: nat)

  /** A kernel line as resolve_line sees it: its offset and its name, None when it has none. */
  datatype KernelLine = KernelLine(offset: nat, name: Option<string>)

  /** The request was already resolved to exactly this line of this chip. */
  predicate AlreadyAt(l: ResolvedLine, offset: nat, chipNum: nat) {
    l.resolved && l.offset == offset && l.chipNum == chipNum
  }

  /** A request takes part in name matching unless it is resolved and the policy is not strict. */
  predicate Eligible(l: ResolvedLine, strict: bool) {
    !l.resolved || strict
  }

  /** The line has a name and it equals the request's id; an unnamed line matches no request. */
  predicate NameMatches(l: ResolvedLine, name: Option<string>) {
    name.Some? && l.id == name.value
  }

  /** The request that is recorded as found at this line of this chip. */
  function FoundAt(l: ResolvedLine, offset: nat, chipNum: nat): ResolvedLine {
    l.(resolved := true, offset := offset, chipNum := chipNum)
  }

  /** What resolve_line does to one request when it sees a line. */
  function Visit(l: ResolvedLine, line: KernelLine, chipNum: nat, strict: bool): ResolvedLine {
    if Eligible(l, strict) && NameMatches(l, line.name) then FoundAt(l, line.offset, chipNum) else l
  }

  /** The reason the request makes resolve_line report the line: found here before, or matched by name now. */
  predicate Hit(l: ResolvedLine, line: KernelLine, chipNum: nat, strict: bool) {
    AlreadyAt(l, line.offset, chipNum) || (Eligible(l, strict) && NameMatches(l, line.name))
  }

  /** All requests after resolve_line has seen one line: each is visited independently. */
  function VisitAll(ls: seq<ResolvedLine>, line: KernelLine, chipNum: nat, strict: bool): (r: seq<ResolvedLine>)
    ensures |r| == |ls|
    decreases |ls|
  {
    if ls == [] then [] else VisitAll(ls[..|ls| - 1], line, chipNum, strict) + [Visit(ls[|ls| - 1], line, chipNum, strict)]
  }

  /** One request after resolve_line has seen the given lines of one chip, in order. */
  function Sweep(l: ResolvedLine, lines: seq<KernelLine>, chipNum: nat, strict: bool): ResolvedLine
    decreases |lines|
  {
    if lines == [] then l else Sweep(Visit(l, lines[0], chipNum, strict), lines[1..], chipNum, strict)
  }

  /** All requests after resolve_line has seen the given lines of one chip, in order. */
  function SweepAll(ls: seq<ResolvedLine>, lines: seq<KernelLine>, chipNum: nat, strict: bool): seq<ResolvedLine>
    decreases |lines|
  {
    if lines == [] then ls else SweepAll(VisitAll(ls, lines[0], chipNum, strict), lines[1..], chipNum, strict)
  }

  /** The resolver state: the requests and the number of lines found so far. */
  class LineResolver {
    var lines: seq<ResolvedLine>
    var numFound: int
    const strict: bool

    /** The resolver as resolver_init hands it over. */
    constructor (lines: seq<ResolvedLine>, numFound: int, strict: bool)
      ensures this.lines == lines && this.numFound == numFound && this.strict == strict
    {
      this.lines := lines;
      this.numFound := numFound;
      this.strict := strict;
    }

    /**
     * resolve_line: every request is visited, so a request found by name is
     * recorded even when an earlier one already answered true.  The result
     * is whether any request was already at this line or matched it by name.
     */
    method ResolveLine(line: KernelLine, chipNum: nat) returns (resolved: bool)
      modifies this
      ensures lines == VisitAll(old(lines), line, chipNum, strict)
      ensures numFound == old(numFound)
      ensures resolved <==> exists i | 0 <= i < |old(lines)| :: Hit(old(lines)[i], line, chipNum, strict)
    {
      ghost var start := lines;
      resolved := false;
      var i := 0;
      while i < |lines|
        invariant 0 <= i <= |lines| == |start|
        invariant forall k | 0 <= k < i :: lines[k] == Visit(start[k], line, chipNum, strict)
        invariant forall k | i <= k < |lines| :: lines[k] == start[k]
        invariant numFound == old(numFound)
        invariant resolved <==> exists k | 0 <= k < i :: Hit(start[k], line, chipNum, strict)
      {
        var l := lines[i];
        if l.resolved && l.offset == line.offset && l.chipNum == chipNum {
          resolved := true;
        }
        if l.resolved && !strict {
          i := i + 1;
          continue;
        }
        if line.name.Some? && l.id == line.name.value {
          lines := lines[i := FoundAt(l, line.offset, chipNum)];
          resolved := true;
        }
        i := i + 1;
      }
      VisitAllEach(start, line, chipNum, strict);
    }
  }

  // ---------------------------------------------------------------- lemmas

  /** VisitAll visits each request on its own, keeping the order of the requests. */
  lemma {:induction false} VisitAllEach(ls: seq<ResolvedLine>, line: KernelLine, chipNum: nat, strict: bool)
    ensures forall k | 0 <= k < |ls| :: VisitAll(ls, line, chipNum, strict)[k] == Visit(ls[k], line, chipNum, strict)
    decreases |ls|
  {
    if ls != [] {
      VisitAllEach(ls[..|ls| - 1], line, chipNum, strict);
    }
  }

  /** A line without a name leaves every request as it was. */
  lemma UnnamedNeverMatches(ls: seq<ResolvedLine>, offset: nat, chipNum: nat, strict: bool)
    ensures VisitAll(ls, KernelLine(offset, None), chipNum, strict) == ls
  {
  }

  /** Requests whose id the line's name does not equal are never modified. */
  lemma {:induction false} SweepUntouched(l: ResolvedLine, lines: seq<KernelLine>, chipNum: nat, strict: bool)
    requires forall k | 0 <= k < |lines| :: !NameMatches(l, lines[k].name)
    ensures Sweep(l, lines, chipNum, strict) == l
    decreases |lines|
  {
    if lines != [] {
      SweepUntouched(l, lines[1..], chipNum, strict);
    }
  }

  /** Without `--strict`, a resolved request keeps its recorded offset and chip whatever lines follow. */
  lemma {:induction false} NonStrictKeepsRecord(l: ResolvedLine, lines: seq<KernelLine>, chipNum: nat)
    requires l.resolved
    ensures Sweep(l, lines, chipNum, false) == l
    decreases |lines|
  {
    if lines != [] {
      NonStrictKeepsRecord(l, lines[1..], chipNum);
    }
  }

  /** Without `--strict`, an open request is recorded at the first line whose name equals its id. */
  lemma {:induction false} NonStrictFirstMatch(l: ResolvedLine, lines: seq<KernelLine>, chipNum: nat, j: nat)
    requires !l.resolved && j < |lines| && NameMatches(l, lines[j].name)
    requires forall k | 0 <= k < j :: !NameMatches(l, lines[k].name)
    ensures Sweep(l, lines, chipNum, false) == FoundAt(l, lines[j].offset, chipNum)
    decreases j
  {
    if j == 0 {
      NonStrictKeepsRecord(FoundAt(l, lines[0].offset, chipNum), lines[1..], chipNum);
    } else {
      NonStrictFirstMatch(l, lines[1..], chipNum, j - 1);
    }
  }

  /** With `--strict`, every later match overwrites the record: the last line named like the request wins. */
  lemma {:induction false} StrictLastMatch(l: ResolvedLine, lines: seq<KernelLine>, chipNum: nat, j: nat)
    requires j < |lines| && NameMatches(l, lines[j].name)
    requires forall k | j < k < |lines| :: !NameMatches(l, lines[k].name)
    ensures Sweep(l, lines, chipNum, true) == FoundAt(l, lines[j].offset, chipNum)
    decreases |lines|
  {
    if j == 0 {
      var l' := FoundAt(l, lines[0].offset, chipNum);
      assert forall k | 0 <= k < |lines[1..]| :: !NameMatches(l', lines[1..][k].name) by {
        forall k | 0 <= k < |lines[1..]| ensures !NameMatches(l', lines[1..][k].name) {
          assert lines[1..][k] == lines[k + 1];
        }
      }
      SweepUntouched(l', lines[1..], chipNum, true);
    } else {
      StrictLastMatch(Visit(l, lines[0], chipNum, true), lines[1..], chipNum, j - 1);
    }
  }

  /** Requests do not interact: after a run of lines, each request is where its own sweep leaves it. */
  lemma {:induction false} SweepAllPerRequest(ls: seq<ResolvedLine>, lines: seq<KernelLine>, chipNum: nat, strict: bool)
    ensures |SweepAll(ls, lines, chipNum, strict)| == |ls|
    ensures forall i | 0 <= i < |ls| :: SweepAll(ls, lines, chipNum, strict)[i] == Sweep(ls[i], lines, chipNum, strict)
    decreases |lines|
  {
    if lines != [] {
      VisitAllEach(ls, lines[0], chipNum, strict);
      SweepAllPerRequest(VisitAll(ls, lines[0], chipNum, strict), lines[1..], chipNum, strict);
    }
  }

  /** Seeing one more line is one more resolve_line step. */
  lemma {:induction false} SweepAllSnoc(ls: seq<ResolvedLine>, lines: seq<KernelLine>, line: KernelLine, chipNum: nat, strict: bool)
    ensures SweepAll(ls, lines + [line], chipNum, strict) == VisitAll(SweepAll(ls, lines, chipNum, strict), line, chipNum, strict)
    decreases |lines|
  {
    if lines == [] {
      assert ([] + [line])[1..] == [];
    } else {
      assert (lines + [line])[0] == lines[0];
      assert (lines + [line])[1..] == lines[1..] + [line];
      SweepAllSnoc(VisitAll(ls, lines[0], chipNum, strict), lines[1..], line, chipNum, strict);
    }
  }
}
