/** The loop watchdog's filter over a session's output: an online monitor of repeated failed calls. */
module LoopWatchdog {
  import opened Basics

  /** How a line is read, once its escapes and its outer blanks are gone: whether it is a failed call,
      and which. */
  datatype Reading = Reading(clean: string -> string, failed: string -> bool, signature: string -> string)

  const INVALID_TOOL := "Invalid Tool"
  const INVALID_PREFIX := "Invalid Tool: "

  // ---- what each line stands for, told from it and the line before it ----

  predicate IsCall(w: Reading, line: string) { w.failed(w.clean(line)) && w.signature(w.clean(line)) != "" }

  /** A malformed call prints the same bare line whatever it was; the next line is its detail. */
  predicate IsBare(w: Reading, line: string) { IsCall(w, line) && w.signature(w.clean(line)) == INVALID_TOOL }

  predicate IsDetail(w: Reading, line: string) { w.clean(line) != "" && !w.failed(w.clean(line)) }

  /** The failed call line i completes, if it completes one. */
  function SignatureAt(w: Reading, lines: seq<string>, i: nat): Option<string>
    requires i < |lines|
  {
    if i > 0 && IsBare(w, lines[i - 1]) && IsDetail(w, lines[i]) then Some(INVALID_PREFIX + w.clean(lines[i]))
    else if IsCall(w, lines[i]) && !IsBare(w, lines[i]) then Some(w.signature(w.clean(lines[i])))
    else None
  }

  /** How often the call was completed in the first n lines. */
  function Times(w: Reading, lines: seq<string>, n: nat, sig: string): nat
    requires n <= |lines|
  {
    if n == 0 then 0 else Times(w, lines, n - 1, sig) + if SignatureAt(w, lines, n - 1) == Some(sig) then 1 else 0
  }

  /** Line i completes a call for at least the threshold's time. */
  predicate Loops(w: Reading, lines: seq<string>, threshold: int, i: nat)
    requires i < |lines|
  {
    SignatureAt(w, lines, i).Some? && Times(w, lines, i + 1, SignatureAt(w, lines, i).value) >= threshold
  }

  lemma {:induction false} TimesPrefix(w: Reading, lines: seq<string>, more: seq<string>, n: nat, sig: string)
    requires n <= |lines|
    ensures Times(w, lines + more, n, sig) == Times(w, lines, n, sig)
  {
    if n > 0 {
      TimesPrefix(w, lines, more, n - 1, sig);
      SignaturePrefix(w, lines, more, n - 1);
    }
  }

  lemma SignaturePrefix(w: Reading, lines: seq<string>, more: seq<string>, i: nat)
    requires i < |lines|
    ensures SignatureAt(w, lines + more, i) == SignatureAt(w, lines, i)
  {
    assert (lines + more)[i] == lines[i];
    if i > 0 { assert (lines + more)[i - 1] == lines[i - 1]; }
  }

  lemma LoopsPrefix(w: Reading, lines: seq<string>, more: seq<string>, threshold: int, i: nat)
    requires i < |lines|
    ensures Loops(w, lines + more, threshold, i) == Loops(w, lines, threshold, i)
  {
    SignaturePrefix(w, lines, more, i);
    if SignatureAt(w, lines, i).Some? { TimesPrefix(w, lines, more, i + 1, SignatureAt(w, lines, i).value); }
  }

  datatype Firing = Firing(line: nat, times: nat, sig: string)

  /** The filter has stopped the session at the first line that loops, or no line loops. */
  ghost predicate FiredAtFirst(w: Reading, lines: seq<string>, threshold: int, fired: Option<Firing>) {
    match fired
    case None => forall i | 0 <= i < |lines| :: !Loops(w, lines, threshold, i)
    case Some(f) =>
      && f.line < |lines| && Loops(w, lines, threshold, f.line) && SignatureAt(w, lines, f.line) == Some(f.sig)
      && f.times == Times(w, lines, f.line + 1, f.sig)
      && forall i | 0 <= i < f.line :: !Loops(w, lines, threshold, i)
  }

  /** The counts are the times each call was completed. */
  ghost predicate Counted(w: Reading, lines: seq<string>, count: map<string, nat>) {
    forall sig: string :: Times(w, lines, |lines|, sig) == SoFar(count, sig)
  }

  function SoFar(count: map<string, nat>, sig: string): nat { if sig in count then count[sig] else 0 }

  /** The counts with one more line. */
  function CountLine(count: map<string, nat>, done: Option<string>): map<string, nat> {
    if done.None? then count else count[done.value := SoFar(count, done.value) + 1]
  }

  // ---- the filter ----

  class Watchdog {
    const w: Reading
    const threshold: int
    var pending: bool
    var count: map<string, nat>
    var fired: Option<Firing>
    var echoed: seq<string>
    /** Every line fed so far. */
    ghost var lines: seq<string>

    ghost predicate Valid()
      reads this
    {
      && echoed == lines && FiredAtFirst(w, lines, threshold, fired)
      && (fired.None? ==>
        && (pending <==> lines != [] && IsBare(w, lines[|lines| - 1]))
        && Counted(w, lines, count))
    }

    constructor (w: Reading, threshold: int)
      ensures Valid() && lines == [] && this.w == w && this.threshold == threshold
    {
      this.w, this.threshold := w, threshold;
      pending, count, fired, echoed, lines := false, map[], None, [], [];
    }

    /** The failed call this line completes, if any, and whether the next line is its detail. */
    method Read(line: string) returns (sig: Option<string>, bare: bool)
      requires Valid() && fired.None?
      ensures sig == SignatureAt(w, lines + [line], |lines|) && bare == IsBare(w, line)
    {
      ghost var all := lines + [line];
      assert |lines| > 0 ==> all[|lines| - 1] == lines[|lines| - 1];
      var text := w.clean(line);
      sig, bare := None, false;
      if pending && text != "" && !w.failed(text) {
        return Some(INVALID_PREFIX + text), false;
      }
      if !w.failed(text) {
        return;
      }
      var s := w.signature(text);
      if s == "" {
        return;
      }
      if s == INVALID_TOOL {
        bare := true;
        return;
      }
      sig := Some(s);
    }

    /** Every line is passed on; once stopped, nothing else happens. */
    method Feed(line: string)
      requires Valid()
      modifies this
      ensures Valid() && lines == old(lines) + [line] && echoed == old(echoed) + [line]
      ensures old(fired).Some? ==> fired == old(fired)
    {
      ghost var before := lines;
      if fired.Some? {
        FiringStands(w, before, line, threshold, fired);
        echoed, lines := echoed + [line], lines + [line];
        return;
      }
      var sig, bare := Read(line);
      CountedMore(w, before, line, count, sig);
      pending := bare;
      count := CountLine(count, sig);
      echoed, lines := echoed + [line], lines + [line];
      if sig.Some? && !(count[sig.value] < threshold) {
        fired := Some(Firing(|echoed| - 1, count[sig.value], sig.value));
      }
      FiredNow(w, before, line, threshold, count, sig, fired);
    }
  }

  lemma CountedMore(w: Reading, lines: seq<string>, line: string, count: map<string, nat>, done: Option<string>)
    requires Counted(w, lines, count) && done == SignatureAt(w, lines + [line], |lines|)
    ensures Counted(w, lines + [line], CountLine(count, done))
  {
    forall sig: string ensures Times(w, lines + [line], |lines + [line]|, sig) == SoFar(CountLine(count, done), sig) {
      TimesPrefix(w, lines, [line], |lines|, sig);
    }
  }

  lemma FiredNow(w: Reading, lines: seq<string>, line: string, threshold: int, count: map<string, nat>,
                 done: Option<string>, fired: Option<Firing>)
    requires FiredAtFirst(w, lines, threshold, None)
    requires Counted(w, lines + [line], count) && done == SignatureAt(w, lines + [line], |lines|)
        && (done.Some? ==> done.value in count)
    requires fired ==
      if done.Some? && !(count[done.value] < threshold) then Some(Firing(|lines|, count[done.value], done.value))
      else None
    ensures FiredAtFirst(w, lines + [line], threshold, fired)
  {
    NoneBefore(w, lines, line, threshold);
    if done.Some? { assert Times(w, lines + [line], |lines| + 1, done.value) == SoFar(count, done.value); }
  }

  lemma NoneBefore(w: Reading, lines: seq<string>, line: string, threshold: int)
    requires forall i | 0 <= i < |lines| :: !Loops(w, lines, threshold, i)
    ensures forall i | 0 <= i < |lines| :: !Loops(w, lines + [line], threshold, i)
  {
    forall i | 0 <= i < |lines| ensures !Loops(w, lines + [line], threshold, i) {
      LoopsPrefix(w, lines, [line], threshold, i);
    }
  }

  lemma FiringStands(w: Reading, lines: seq<string>, line: string, threshold: int, fired: Option<Firing>)
    requires FiredAtFirst(w, lines, threshold, fired) && fired.Some?
    ensures FiredAtFirst(w, lines + [line], threshold, fired)
  {
    SignaturePrefix(w, lines, [line], fired.value.line);
    TimesPrefix(w, lines, [line], fired.value.line + 1, fired.value.sig);
    forall i | 0 <= i < fired.value.line ensures !Loops(w, lines + [line], threshold, i) {
      LoopsPrefix(w, lines, [line], threshold, i);
    }
  }

  lemma {:induction false} TimesGrow(w: Reading, lines: seq<string>, n: nat, m: nat, sig: string)
    requires n <= m <= |lines|
    ensures Times(w, lines, n, sig) <= Times(w, lines, m, sig)
  {
    if n < m { TimesGrow(w, lines, n, m - 1, sig); }
  }

  /** With a positive threshold the session is stopped exactly when some call is completed that often,
      and the call is then named with exactly that count. */
  lemma StopsExactly(w: Reading, lines: seq<string>, threshold: nat, fired: Option<Firing>)
    requires threshold > 0 && FiredAtFirst(w, lines, threshold, fired)
    ensures fired.Some? <==> exists sig: string :: Times(w, lines, |lines|, sig) >= threshold
    ensures fired.Some? ==> fired.value.times == threshold
  {
    if fired.Some? {
      TimesGrow(w, lines, fired.value.line + 1, |lines|, fired.value.sig);
      if fired.value.times > threshold {
        var i := LastBefore(w, lines, fired.value.line, threshold, fired.value.sig);
        assert Loops(w, lines, threshold, i);
        assert false;
      }
    } else if sig: string :| Times(w, lines, |lines|, sig) >= threshold {
      var i := LastBefore(w, lines, |lines|, threshold, sig);
      assert Loops(w, lines, threshold, i);
      assert false;
    }
  }

  /** A call completed often enough before line n was completed at some line by then that often. */
  lemma {:induction false} LastBefore(w: Reading, lines: seq<string>, n: nat, threshold: nat, sig: string)
    returns (i: nat)
    requires n <= |lines| && threshold > 0 && Times(w, lines, n, sig) >= threshold
    ensures i < n && SignatureAt(w, lines, i) == Some(sig) && Times(w, lines, i + 1, sig) >= threshold
  {
    if SignatureAt(w, lines, n - 1) == Some(sig) {
      i := n - 1;
    } else {
      i := LastBefore(w, lines, n - 1, threshold, sig);
    }
  }
}
