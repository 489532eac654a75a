/** Fitting a fix session's prompt into its cap, and what may then be dispatched. */
module PromptFit {
  import opened Basics

  datatype PromptFile = PromptFile(path: string, bytes: nat, editable: bool, shown: bool)

  const EXCERPT_FLOOR := 512
  const MAX_ROUNDS := 96

  /** How a context reads: the prompt's text, and the longest job excerpt at a per-job cap. */
  datatype Rendering = Rendering(text: (seq<PromptFile>, int) -> string, longest: int -> nat)

  /** Nothing changed but files that are no longer shown. */
  predicate OnlyHides(before: seq<PromptFile>, after: seq<PromptFile>) {
    |after| == |before| && forall i | 0 <= i < |before| ::
      after[i] == before[i] || (before[i].shown && after[i] == before[i].(shown := false))
  }

  /** A file was hidden only while no larger one was shown. */
  predicate LargestFirst(before: seq<PromptFile>, after: seq<PromptFile>)
    requires |after| == |before|
  {
    forall i, j | 0 <= i < |before| && 0 <= j < |before| ::
      before[i].shown && !after[i].shown && after[j].shown ==> after[j].bytes <= before[i].bytes
  }

  predicate NoneShown(files: seq<PromptFile>) { forall f | f in files :: !f.shown }

  function ShownCount(files: seq<PromptFile>): nat {
    if files == [] then 0 else ShownCount(files[..|files| - 1]) + if files[|files| - 1].shown then 1 else 0
  }

  lemma {:induction false} HideOne(files: seq<PromptFile>, i: nat)
    requires i < |files| && files[i].shown
    ensures ShownCount(files[i := files[i].(shown := false)]) == ShownCount(files) - 1
  {
    var hidden := files[i := files[i].(shown := false)];
    if i == |files| - 1 {
      assert hidden[..i] == files[..i];
    } else {
      HideOne(files[..|files| - 1], i);
      assert hidden[..|files| - 1] == files[..|files| - 1][i := files[i].(shown := false)];
    }
  }

  class Context {
    const how: Rendering
    /** The jobs whose logs share the excerpt budget. */
    const excerpted: nat
    var files: seq<PromptFile>
    var excerptMax: int

    constructor (how: Rendering, excerpted: nat, files: seq<PromptFile>, excerptMax: int)
      ensures this.how == how && this.excerpted == excerpted && this.files == files && this.excerptMax == excerptMax
    {
      this.how, this.excerpted, this.files, this.excerptMax := how, excerpted, files, excerptMax;
    }

    function Prompt(): string
      reads this
    {
      how.text(files, excerptMax)
    }

    /** The first of the largest files shown. */
    method Largest() returns (largest: Option<nat>)
      ensures largest.None? <==> NoneShown(files)
      ensures largest.Some? ==>
        && largest.value < |files| && files[largest.value].shown
        && forall j | 0 <= j < |files| && files[j].shown :: files[j].bytes <= files[largest.value].bytes
    {
      largest := None;
      for i := 0 to |files|
        invariant largest.None? ==> forall j | 0 <= j < i :: !files[j].shown
        invariant largest.Some? ==>
          && largest.value < |files| && files[largest.value].shown
          && forall j | 0 <= j < i && files[j].shown :: files[j].bytes <= files[largest.value].bytes
      {
        if files[i].shown && (largest.None? || files[i].bytes > files[largest.value].bytes) {
          largest := Some(i);
        }
      }
      if largest.Some? { assert files[largest.value] in files; }
    }

    /** Drops the largest shown file, then the next, then shrinks the excerpts, until the prompt fits;
        a prompt that still does not is an error. cuts counts the rounds. */
    method Fit(limit: int) returns (r: Option<string>, ghost cuts: nat)
      modifies this
      ensures OnlyHides(old(files), files) && LargestFirst(old(files), files)
      ensures excerptMax == old(excerptMax) || (EXCERPT_FLOOR <= excerptMax < old(excerptMax) && NoneShown(files))
      ensures r.Some? <==> |Prompt()| <= limit
      ensures r.Some? ==> r.value == Prompt()
      ensures r.None? ==> NoneShown(files) && (excerpted == 0 || excerptMax <= EXCERPT_FLOOR || cuts > MAX_ROUNDS)
      ensures cuts == 0 <==> files == old(files) && excerptMax == old(excerptMax)
      ensures |old(Prompt())| <= limit ==> cuts == 0
    {
      var n := excerpted;
      var i := 0;
      cuts := 0;
      while true
        invariant OnlyHides(old(files), files) && LargestFirst(old(files), files)
        invariant excerptMax == old(excerptMax) || (EXCERPT_FLOOR <= excerptMax < old(excerptMax) && NoneShown(files))
        invariant cuts == i
        invariant cuts == 0 <==> files == old(files) && excerptMax == old(excerptMax)
        invariant cuts > 0 ==> |old(Prompt())| > limit
        decreases ShownCount(files), excerptMax - EXCERPT_FLOOR
      {
        var p := how.text(files, excerptMax);
        if |p| <= limit {
          return Some(p), cuts;
        }
        var largest := Largest();
        if largest.Some? {
          var k := largest.value;
          HideOne(files, k);
          Hidden(old(files), files, k);
          files := files[k := files[k].(shown := false)];
          i, cuts := i + 1, cuts + 1;
          continue;
        }
        var cur := excerptMax;
        if n == 0 || cur <= EXCERPT_FLOOR || i > MAX_ROUNDS {
          return None, cuts;
        }
        var longest := how.longest(cur);
        var over := |p| - limit;
        var next := (if longest < cur then longest else cur) - (over + n - 1) / n;
        CeilingPositive(over, n);
        if next >= cur {
          next := cur - 1;
        }
        excerptMax := if next > EXCERPT_FLOOR then next else EXCERPT_FLOOR;
        i, cuts := i + 1, cuts + 1;
      }
    }
  }

  lemma CeilingPositive(over: int, n: nat)
    requires over > 0 && n > 0
    ensures (over + n - 1) / n >= 1
  {
    assert over + n - 1 >= n;
  }

  lemma Hidden(before: seq<PromptFile>, files: seq<PromptFile>, k: nat)
    requires OnlyHides(before, files) && LargestFirst(before, files) && k < |files| && files[k].shown
    requires forall j | 0 <= j < |files| && files[j].shown :: files[j].bytes <= files[k].bytes
    ensures var next := files[k := files[k].(shown := false)];
      OnlyHides(before, next) && LargestFirst(before, next) && next != before
  {
    var next := files[k := files[k].(shown := false)];
    assert before[k].shown && !next[k].shown;
  }

  // ---- the dispatch ----

  datatype Dispatch = Dispatch(prompt: string, checkout: string, editable: seq<string>)

  function EditablePaths(files: seq<PromptFile>): seq<string> {
    if files == [] then [] else
      EditablePaths(files[..|files| - 1]) + if files[|files| - 1].editable then [files[|files| - 1].path] else []
  }

  /** A session that cannot read a file it must edit. */
  predicate Blind(files: seq<PromptFile>, checkout: string) {
    checkout == "" && exists f :: f in files && f.editable && !f.shown
  }

  /** Fits the prompt first, then refuses a session without a checkout whose editable files are not
      all still shown. checkout is the granted commit, "" when none was. */
  method Prepare(pc: Context, checkout: string, limit: int) returns (r: Option<Dispatch>)
    modifies pc
    ensures OnlyHides(old(pc.files), pc.files)
    ensures r.Some? <==> |pc.Prompt()| <= limit && !Blind(pc.files, checkout)
    ensures r.Some? ==> r.value == Dispatch(pc.Prompt(), checkout, EditablePaths(old(pc.files)))
    ensures r.Some? && checkout == "" ==> forall f | f in pc.files && f.editable :: f.shown
  {
    ghost var before := pc.files;
    var p, cuts := pc.Fit(limit);
    if p.None? {
      return None;
    }
    var editable: seq<string> := [];
    for i := 0 to |pc.files|
      invariant editable == EditablePaths(pc.files[..i])
      invariant checkout == "" ==> forall j | 0 <= j < i :: pc.files[j].editable ==> pc.files[j].shown
    {
      assert pc.files[..i + 1][..i] == pc.files[..i];
      var f := pc.files[i];
      assert f in pc.files;
      if checkout == "" && f.editable && !f.shown {
        return None;
      }
      if f.editable {
        editable := editable + [f.path];
      }
    }
    assert pc.files[..|pc.files|] == pc.files;
    SameEditable(before, pc.files);
    return Some(Dispatch(p.value, checkout, editable));
  }

  lemma {:induction false} SameEditable(before: seq<PromptFile>, after: seq<PromptFile>)
    requires OnlyHides(before, after)
    ensures EditablePaths(before) == EditablePaths(after)
  {
    if before != [] { SameEditable(before[..|before| - 1], after[..|after| - 1]); }
  }
}
