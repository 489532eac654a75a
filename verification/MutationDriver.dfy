/** The mutation drivers: each mutation is written over the tree's files, and sealed again where a file
    has a checksum or a published copy; its tests are run, and the files are put back. */
module MutationDriver {
  import opened Basics
  import opened EditSpec
  import opened Listing

  type Tree = map<string, string>

  /** A replacement of a text's first occurrence, or a new file. */
  datatype Change = Replace(file: string, old_: string, new_: string) | Create(file: string, content: string)

  datatype Outcome = Killed | Survived | NoCompile

  /** Where a file's checksum is kept, and where it is published, if it is. */
  datatype Seal = Seal(sumFile: string, published: Option<string>)

  /** The surroundings: what reading a file as text makes of its bytes, a text's checksum, what the tests
      answer on a tree, unless running them fails, the sealed files, and whether a replacement of a text
      by itself is refused. */
  datatype Env = Env(
    read: string -> string, sum: string -> string, test: Tree -> Option<Outcome>, seals: map<string, Seal>,
    strict: bool)

  // ---- one mutation ----

  /** What a mutation will do: nothing can be read, it is not the mutation it claims to be, or the
      texts to put back, the texts to write, the files to add, and the checksums and copies to write. */
  datatype Plan = Unreadable | Vacuous | Ready(originals: Tree, mutated: Tree, created: Tree, copies: Tree)

  /** The texts of the files to be edited; none when one cannot be opened. */
  function Originals(e: Env, t: Tree, cs: seq<Change>): Option<Tree> {
    if cs == [] then Some(map[]) else
      var front, c := Originals(e, t, cs[..|cs| - 1]), cs[|cs| - 1];
      if front.None? || c.Create? then front
      else if c.file !in t then None
      else Some(front.value[c.file := e.read(t[c.file])])
  }

  /** Every replacement in order; none when a text is not there, or would be replaced by itself. */
  function Replacements(strict: bool, texts: Tree, cs: seq<Change>): Option<Tree> {
    if cs == [] then Some(texts) else
      var front, c := Replacements(strict, texts, cs[..|cs| - 1]), cs[|cs| - 1];
      if front.None? || c.Create? then front
      else if strict && c.old_ == c.new_ then None
      else if c.file !in front.value || IndexFrom(front.value[c.file], c.old_, 0).None? then None
      else Some(front.value[c.file := Replaced(front.value[c.file], IndexFrom(front.value[c.file], c.old_, 0).value,
                                               c.old_, c.new_)])
  }

  function Creations(cs: seq<Change>): Tree {
    if cs == [] then map[] else
      var c := cs[|cs| - 1];
      if c.Create? then Creations(cs[..|cs| - 1])[c.file := c.content] else Creations(cs[..|cs| - 1])
  }

  /** The files edited, in the order they are first named. */
  function Edited(cs: seq<Change>): seq<string> {
    if cs == [] then [] else
      var front, c := Edited(cs[..|cs| - 1]), cs[|cs| - 1];
      if c.Replace? && c.file !in front then front + [c.file] else front
  }

  function SealFiles(s: Seal): seq<string> { [s.sumFile] + if s.published.Some? then [s.published.value] else [] }

  /** The texts of their seals too; none when one cannot be opened. */
  function Saved(e: Env, t: Tree, texts: Tree, names: seq<string>): Option<Tree> {
    if names == [] then Some(texts) else
      var front, f := Saved(e, t, texts, names[..|names| - 1]), names[|names| - 1];
      if front.None? || f in front.value then front
      else if f !in t then None
      else Some(front.value[f := e.read(t[f])])
  }

  function AllSeals(e: Env, fs: seq<string>): seq<string> {
    if fs == [] then [] else
      var f := fs[|fs| - 1];
      AllSeals(e, fs[..|fs| - 1]) + if f in e.seals then SealFiles(e.seals[f]) else []
  }

  /** The checksum of each sealed file as it now is on the tree, and its new text where it is published. */
  function Copies(e: Env, t: Tree, mutated: Tree, fs: seq<string>): Tree {
    if fs == [] then map[] else
      var front, f := Copies(e, t, mutated, fs[..|fs| - 1]), fs[|fs| - 1];
      if f !in e.seals || f !in mutated || f !in t then front
      else
        var summed := front[e.seals[f].sumFile := e.sum((t + front)[f])];
        if e.seals[f].published.Some? then summed[e.seals[f].published.value := mutated[f]] else summed
  }

  predicate Clashes(t: Tree, cs: seq<Change>) { exists c :: c in cs && c.Create? && c.file in t }

  function PlanOf(e: Env, t: Tree, cs: seq<Change>): Plan {
    match Originals(e, t, cs)
    case None => Unreadable
    case Some(originals) =>
      if Clashes(t, cs) then Vacuous
      else match Replacements(e.strict, originals, cs)
        case None => Vacuous
        case Some(mutated) => SealedPlan(e, t, originals, mutated, cs)
  }

  function SealedPlan(e: Env, t: Tree, originals: Tree, mutated: Tree, cs: seq<Change>): Plan {
    match Saved(e, t, originals, AllSeals(e, Edited(cs)))
    case None => Unreadable
    case Some(all) => Ready(all, mutated, Creations(cs), Copies(e, t + mutated + Creations(cs), mutated, Edited(cs)))
  }

  /** The tree the tests run on. */
  function Mutated(t: Tree, p: Plan): Tree
    requires p.Ready?
  {
    t + p.mutated + p.created + p.copies
  }

  /** The tree after a mutation: the files it edited as they read, all others as they were. */
  function After(t: Tree, p: Plan): Tree { if p.Ready? then t + p.originals else t }

  lemma {:induction false} OriginalKeys(e: Env, t: Tree, cs: seq<Change>)
    requires Originals(e, t, cs).Some?
    ensures Originals(e, t, cs).value.Keys <= t.Keys
    ensures forall f | f in Originals(e, t, cs).value :: Originals(e, t, cs).value[f] == e.read(t[f])
  {
    if cs != [] { OriginalKeys(e, t, cs[..|cs| - 1]); }
  }

  lemma {:induction false} ReplacementKeys(strict: bool, texts: Tree, cs: seq<Change>)
    requires Replacements(strict, texts, cs).Some?
    ensures Replacements(strict, texts, cs).value.Keys == texts.Keys
  {
    if cs != [] { ReplacementKeys(strict, texts, cs[..|cs| - 1]); }
  }

  lemma {:induction false} SavedKeys(e: Env, t: Tree, texts: Tree, names: seq<string>)
    requires Saved(e, t, texts, names).Some? && texts.Keys <= t.Keys
    requires forall f | f in texts :: texts[f] == e.read(t[f])
    ensures texts.Keys <= Saved(e, t, texts, names).value.Keys <= t.Keys
    ensures forall f | f in names :: f in Saved(e, t, texts, names).value
    ensures forall f | f in Saved(e, t, texts, names).value :: Saved(e, t, texts, names).value[f] == e.read(t[f])
  {
    if names != [] {
      assert names == names[..|names| - 1] + [names[|names| - 1]];
      SavedKeys(e, t, texts, names[..|names| - 1]);
    }
  }

  /** Only seals are written as copies. */
  lemma {:induction false} CopyKeys(e: Env, t: Tree, mutated: Tree, fs: seq<string>)
    ensures forall f | f in Copies(e, t, mutated, fs) :: f in AllSeals(e, fs)
  {
    if fs != [] { CopyKeys(e, t, mutated, fs[..|fs| - 1]); }
  }

  lemma {:induction false} CreationKeys(t: Tree, cs: seq<Change>)
    requires !Clashes(t, cs)
    ensures Creations(cs).Keys !! t.Keys
  {
    if cs != [] {
      assert cs == cs[..|cs| - 1] + [cs[|cs| - 1]];
      CreationKeys(t, cs[..|cs| - 1]);
      if cs[|cs| - 1].Create? { assert cs[|cs| - 1] in cs; }
    }
  }

  /** What a plan touches: files that are there, each with the text it reads as, and new ones. */
  lemma PlanKeys(e: Env, t: Tree, cs: seq<Change>)
    requires PlanOf(e, t, cs).Ready?
    ensures var p := PlanOf(e, t, cs);
      && p.mutated.Keys <= p.originals.Keys <= t.Keys && p.created.Keys !! t.Keys && p.copies.Keys <= p.originals.Keys
      && forall f | f in p.originals :: p.originals[f] == e.read(t[f])
  {
    OriginalKeys(e, t, cs);
    var texts := Originals(e, t, cs).value;
    ReplacementKeys(e.strict, texts, cs);
    CreationKeys(t, cs);
    SavedKeys(e, t, texts, AllSeals(e, Edited(cs)));
    var mutated := Replacements(e.strict, texts, cs).value;
    CopyKeys(e, t + mutated + Creations(cs), mutated, Edited(cs));
  }

  lemma PutBack(t: Tree, originals: Tree, mutated: Tree, created: Tree, copies: Tree)
    requires mutated.Keys <= originals.Keys <= t.Keys && created.Keys !! t.Keys && copies.Keys <= originals.Keys
    ensures (t + mutated + created + copies + originals) - created.Keys == t + originals
  {}

  /** Putting the originals back over the mutated tree and removing the new files undoes it, seals and
      copies too. */
  lemma RestoreUndoes(e: Env, t: Tree, cs: seq<Change>)
    requires PlanOf(e, t, cs).Ready?
    ensures var p := PlanOf(e, t, cs); (Mutated(t, p) + p.originals) - p.created.Keys == After(t, p)
    ensures var p := PlanOf(e, t, cs); p.originals.Keys <= t.Keys
    ensures After(t, PlanOf(e, t, cs)).Keys == t.Keys
    ensures var p := PlanOf(e, t, cs);
      forall f | f in t :: After(t, p)[f] == if f in p.originals then e.read(t[f]) else t[f]
  {
    PlanKeys(e, t, cs);
    var p := PlanOf(e, t, cs);
    PutBack(t, p.originals, p.mutated, p.created, p.copies);
  }

  // ---- seals ----

  /** No two files share a seal's file. */
  predicate Apart(e: Env) {
    && (forall f, g, x | f in e.seals && g in e.seals && x in SealFiles(e.seals[f]) && x in SealFiles(e.seals[g]) ::
          f == g)
    && (forall f | f in e.seals :: e.seals[f].published != Some(e.seals[f].sumFile))
  }

  /** The mutation edits no seal's file. */
  predicate Spares(e: Env, fs: seq<string>) {
    forall f, x | f in e.seals && x in SealFiles(e.seals[f]) :: x !in fs
  }

  /** The file's checksum and its copy, as they should be. */
  predicate SealedWell(e: Env, t: Tree, s: Seal, text: string) {
    && s.sumFile in t && t[s.sumFile] == e.sum(text)
    && (s.published.Some? ==> s.published.value in t && t[s.published.value] == text)
  }

  lemma {:induction false} SealsOf(e: Env, fs: seq<string>, x: string)
    requires x in AllSeals(e, fs)
    ensures exists f :: f in fs && f in e.seals && x in SealFiles(e.seals[f])
  {
    if fs != [] {
      var front, g := fs[..|fs| - 1], fs[|fs| - 1];
      assert fs == front + [g];
      if !(g in e.seals && x in SealFiles(e.seals[g])) { SealsOf(e, front, x); }
    }
  }

  lemma SealFilesNamed(s: Seal)
    ensures s.sumFile in SealFiles(s) && (s.published.Some? ==> s.published.value in SealFiles(s))
  {}

  function Sealing(front: Tree, s: Seal, sum: string, text: string): Tree {
    if s.published.Some? then front[s.sumFile := sum][s.published.value := text] else front[s.sumFile := sum]
  }

  lemma SealsApart(e: Env, f: string, g: string, front: Tree, sum: string, text: string, own: string)
    requires Apart(e) && f in e.seals && g in e.seals && f != g && SealedWell(e, front, e.seals[f], own)
    ensures SealedWell(e, Sealing(front, e.seals[g], sum, text), e.seals[f], own)
  {
    SealFilesNamed(e.seals[f]);
    SealFilesNamed(e.seals[g]);
  }

  lemma {:induction false} CopiesSeal(e: Env, t: Tree, mutated: Tree, fs: seq<string>, f: string)
    requires Apart(e) && Spares(e, fs) && f in fs && f in e.seals
    requires forall g | g in fs :: g in mutated && g in t && t[g] == mutated[g]
    ensures SealedWell(e, Copies(e, t, mutated, fs), e.seals[f], mutated[f])
  {
    var front, g := fs[..|fs| - 1], fs[|fs| - 1];
    assert fs == front + [g];
    var copies := Copies(e, t, mutated, front);
    CopyKeys(e, t, mutated, front);
    if g in copies { SealsOf(e, front, g); }
    if g in e.seals {
      assert Copies(e, t, mutated, fs) == Sealing(copies, e.seals[g], e.sum(mutated[g]), mutated[g]);
    }
    if g != f {
      assert f in front && forall h | h in front :: h in front + [g];
      CopiesSeal(e, t, mutated, front, f);
      if g in e.seals { SealsApart(e, f, g, copies, e.sum(mutated[g]), mutated[g], mutated[f]); }
    }
  }

  /** The tree the tests run on is sealed: each edited file has its own checksum and its own text
      published, so what fails is not its seal. */
  lemma SealsHold(e: Env, t: Tree, cs: seq<Change>, f: string)
    requires PlanOf(e, t, cs).Ready? && Apart(e) && Spares(e, Edited(cs)) && f in Edited(cs) && f in e.seals
    ensures var m := Mutated(t, PlanOf(e, t, cs)); f in m && SealedWell(e, m, e.seals[f], m[f])
  {
    var p := PlanOf(e, t, cs);
    PlanKeys(e, t, cs);
    EditedKeys(e, t, cs);
    var written := t + p.mutated + p.created;
    CopiesSeal(e, written, p.mutated, Edited(cs), f);
    CopyKeys(e, written, p.mutated, Edited(cs));
    if f in p.copies { SealsOf(e, Edited(cs), f); }
  }

  lemma {:induction false} UnreadableStays(e: Env, t: Tree, cs: seq<Change>, i: nat)
    requires i <= |cs| && Originals(e, t, cs[..i]).None?
    ensures Originals(e, t, cs).None?
    decreases |cs|
  {
    if i < |cs| {
      assert cs[..|cs| - 1][..i] == cs[..i];
      UnreadableStays(e, t, cs[..|cs| - 1], i);
    } else {
      assert cs[..i] == cs;
    }
  }

  lemma {:induction false} RefusedStays(strict: bool, texts: Tree, cs: seq<Change>, i: nat)
    requires i <= |cs| && Replacements(strict, texts, cs[..i]).None?
    ensures Replacements(strict, texts, cs).None?
    decreases |cs|
  {
    if i < |cs| {
      assert cs[..|cs| - 1][..i] == cs[..i];
      RefusedStays(strict, texts, cs[..|cs| - 1], i);
    } else {
      assert cs[..i] == cs;
    }
  }

  lemma {:induction false} UnsavedStays(e: Env, t: Tree, texts: Tree, names: seq<string>, i: nat)
    requires i <= |names| && Saved(e, t, texts, names[..i]).None?
    ensures Saved(e, t, texts, names).None?
    decreases |names|
  {
    if i < |names| {
      assert names[..|names| - 1][..i] == names[..i];
      UnsavedStays(e, t, texts, names[..|names| - 1], i);
    } else {
      assert names[..i] == names;
    }
  }

  lemma {:induction false} EditedRead(e: Env, t: Tree, cs: seq<Change>)
    requires Originals(e, t, cs).Some?
    ensures forall f | f in Edited(cs) :: f in Originals(e, t, cs).value
  {
    if cs != [] { EditedRead(e, t, cs[..|cs| - 1]); }
  }

  lemma EditedKeys(e: Env, t: Tree, cs: seq<Change>)
    requires PlanOf(e, t, cs).Ready?
    ensures forall f | f in Edited(cs) :: f in PlanOf(e, t, cs).mutated && f in t
  {
    EditedRead(e, t, cs);
    OriginalKeys(e, t, cs);
    ReplacementKeys(e.strict, Originals(e, t, cs).value, cs);
  }

  // ---- the driver ----

  datatype Result = VacuousAt(index: nat) | Tested(index: nat, outcome: Outcome)

  predicate Chosen(only: set<nat>, i: nat) { only == {} || i in only }

  /** Where the driver stands after some mutations: the tree, the results, and whether it died. */
  datatype State = State(tree: Tree, results: seq<Result>, died: bool)

  function Step(e: Env, s: State, i: nat, cs: seq<Change>): State {
    var p := PlanOf(e, s.tree, cs);
    match p
    case Unreadable => s.(died := true)
    case Vacuous => s.(results := s.results + [VacuousAt(i)])
    case Ready(_, _, _, _) =>
      match e.test(Mutated(s.tree, p))
      case None => State(After(s.tree, p), s.results, true)
      case Some(o) => State(After(s.tree, p), s.results + [Tested(i, o)], false)
  }

  /** The first n mutations of the list, those chosen. */
  function DriveOf(e: Env, t: Tree, muts: seq<seq<Change>>, only: set<nat>, n: nat): State
    requires n <= |muts|
  {
    if n == 0 then State(t, [], false) else
      var s := DriveOf(e, t, muts, only, n - 1);
      if s.died || !Chosen(only, n - 1) then s else Step(e, s, n - 1, muts[n - 1])
  }

  class Disk {
    var files: Tree

    constructor (files: Tree)
      ensures this.files == files
    {
      this.files := files;
    }

    /** Writes each text over its file. */
    method WriteAll(texts: Tree)
      modifies this
      ensures files == old(files) + texts
    {
      var left := texts.Keys;
      while left != {}
        invariant left <= texts.Keys
        invariant files == old(files) + map f | f in texts && f !in left :: texts[f]
        decreases |left|
      {
        var f :| f in left;
        left := left - {f};
        files := files[f := texts[f]];
      }
      assert (map f | f in texts && f !in left :: texts[f]) == texts;
    }

    method RemoveAll(names: set<string>)
      modifies this
      ensures files == old(files) - names
    {
      var left := names;
      while left != {}
        invariant left <= names && files == old(files) - (names - left)
        decreases |left|
      {
        var f :| f in left;
        left := left - {f};
        files := files - {f};
      }
    }

    /** Writes the checksums, and the copies, of the sealed files among those edited. */
    method Reseal(e: Env, mutated: Tree, fs: seq<string>)
      requires forall f | f in fs :: f in mutated && f in files
      modifies this
      ensures files == old(files) + Copies(e, old(files), mutated, fs)
    {
      for i := 0 to |fs|
        invariant files == old(files) + Copies(e, old(files), mutated, fs[..i])
      {
        assert fs[..i + 1][..i] == fs[..i] && fs[..i + 1][i] == fs[i];
        var f := fs[i];
        if f in e.seals {
          files := files[e.seals[f].sumFile := e.sum(files[f])];
          if e.seals[f].published.Some? {
            files := files[e.seals[f].published.value := mutated[f]];
          }
        }
      }
      assert fs[..|fs|] == fs;
    }

    /** Reads the files the mutation edits, as text; none when one cannot be opened. */
    method ReadOriginals(e: Env, cs: seq<Change>) returns (texts: Option<Tree>, clash: bool)
      ensures texts == Originals(e, files, cs)
      ensures texts.Some? ==> clash == Clashes(files, cs)
    {
      var out: Tree := map[];
      clash := false;
      for i := 0 to |cs|
        invariant Originals(e, files, cs[..i]) == Some(out)
        invariant clash <==> exists j :: 0 <= j < i && cs[j].Create? && cs[j].file in files
      {
        assert cs[..i + 1][..i] == cs[..i] && cs[..i + 1][i] == cs[i];
        if cs[i].Create? {
          clash := clash || cs[i].file in files;
        } else if cs[i].file !in files {
          UnreadableStays(e, files, cs, i + 1);
          return None, clash;
        } else {
          out := out[cs[i].file := e.read(files[cs[i].file])];
        }
      }
      assert cs[..|cs|] == cs;
      return Some(out), clash;
    }

    /** The texts after every replacement; none when one is not there. */
    method Replace(strict: bool, originals: Tree, cs: seq<Change>) returns (texts: Option<Tree>)
      ensures texts == Replacements(strict, originals, cs)
    {
      var cur := originals;
      for i := 0 to |cs|
        invariant Replacements(strict, originals, cs[..i]) == Some(cur)
      {
        assert cs[..i + 1][..i] == cs[..i] && cs[..i + 1][i] == cs[i];
        if cs[i].Replace? {
          var c := cs[i];
          if (strict && c.old_ == c.new_) || c.file !in cur || IndexFrom(cur[c.file], c.old_, 0).None? {
            RefusedStays(strict, originals, cs, i + 1);
            return None;
          }
          cur := cur[c.file := Replaced(cur[c.file], IndexFrom(cur[c.file], c.old_, 0).value, c.old_, c.new_)];
        }
      }
      assert cs[..|cs|] == cs;
      return Some(cur);
    }

    /** The seals' texts beside the others. */
    method SaveSeals(e: Env, texts: Tree, names: seq<string>) returns (all: Option<Tree>)
      ensures all == Saved(e, files, texts, names)
    {
      var out := texts;
      for i := 0 to |names|
        invariant Saved(e, files, texts, names[..i]) == Some(out)
      {
        assert names[..i + 1][..i] == names[..i] && names[..i + 1][i] == names[i];
        if names[i] !in out {
          if names[i] !in files {
            UnsavedStays(e, files, texts, names, i + 1);
            return None;
          }
          out := out[names[i] := e.read(files[names[i]])];
        }
      }
      assert names[..|names|] == names;
      return Some(out);
    }

    /** Everything the mutation needs, before anything is written. */
    method MakePlan(e: Env, cs: seq<Change>) returns (p: Plan)
      ensures p == PlanOf(e, files, cs)
    {
      var originals, clash := ReadOriginals(e, cs);
      if originals.None? {
        return Unreadable;
      }
      if clash {
        return Vacuous;
      }
      var mutated := Replace(e.strict, originals.value, cs);
      if mutated.None? {
        return Vacuous;
      }
      var all := SaveSeals(e, originals.value, AllSeals(e, Edited(cs)));
      if all.None? {
        return Unreadable;
      }
      var written := files + mutated.value + Creations(cs);
      p := Ready(all.value, mutated.value, Creations(cs), Copies(e, written, mutated.value, Edited(cs)));
    }

    /** One mutation: read, check, write, test, and, whatever the test did, put back. */
    method RunOne(e: Env, s: State, i: nat, cs: seq<Change>) returns (r: State)
      requires files == s.tree
      modifies this
      ensures r == Step(e, s, i, cs) && files == r.tree
    {
      var p := MakePlan(e, cs);
      if p.Unreadable? {
        return s.(died := true);
      }
      if p.Vacuous? {
        return s.(results := s.results + [VacuousAt(i)]);
      }
      RestoreUndoes(e, files, cs);
      EditedKeys(e, files, cs);
      WriteAll(p.mutated);
      WriteAll(p.created);
      Reseal(e, p.mutated, Edited(cs));
      var tested := e.test(files);
      WriteAll(p.originals);
      RemoveAll(p.created.Keys);
      match tested {
        case None => r := State(files, s.results, true);
        case Some(o) => r := State(files, s.results + [Tested(i, o)], false);
      }
    }

    method Drive(e: Env, muts: seq<seq<Change>>, only: set<nat>) returns (r: State)
      modifies this
      ensures r == DriveOf(e, old(files), muts, only, |muts|) && files == r.tree
    {
      ghost var t := files;
      r := State(files, [], false);
      var i := 0;
      while i < |muts| && !r.died
        invariant i <= |muts| && r == DriveOf(e, t, muts, only, i) && files == r.tree
      {
        DriveNext(e, t, muts, only, i);
        if Chosen(only, i) {
          r := RunOne(e, r, i, muts[i]);
        }
        i := i + 1;
      }
      DeadStays(e, t, muts, only, i);
    }
  }

  lemma DriveNext(e: Env, t: Tree, muts: seq<seq<Change>>, only: set<nat>, i: nat)
    requires i < |muts| && !DriveOf(e, t, muts, only, i).died
    ensures DriveOf(e, t, muts, only, i + 1)
         == if Chosen(only, i) then Step(e, DriveOf(e, t, muts, only, i), i, muts[i]) else DriveOf(e, t, muts, only, i)
  {}

  lemma {:induction false} DeadStays(e: Env, t: Tree, muts: seq<seq<Change>>, only: set<nat>, n: nat)
    requires n <= |muts| && (n == |muts| || DriveOf(e, t, muts, only, n).died)
    ensures DriveOf(e, t, muts, only, |muts|) == DriveOf(e, t, muts, only, n)
    decreases |muts| - n
  {
    if n < |muts| { DeadStays(e, t, muts, only, n + 1); }
  }

  // ---- restoring ----

  /** Files that reading as text leaves alone. */
  predicate Survives(e: Env, t: Tree, cs: seq<Change>) {
    PlanOf(e, t, cs).Ready? ==> forall f | f in PlanOf(e, t, cs).originals && f in t :: e.read(t[f]) == t[f]
  }

  /** A mutation leaves the tree exactly as it was when, and only when, the files it edits survive
      being read as text. */
  lemma RestoresExactly(e: Env, t: Tree, cs: seq<Change>)
    ensures After(t, PlanOf(e, t, cs)) == t <==> Survives(e, t, cs)
  {
    if PlanOf(e, t, cs).Ready? {
      RestoreUndoes(e, t, cs);
      var p := PlanOf(e, t, cs);
      if After(t, p) == t {
        forall f | f in p.originals && f in t ensures e.read(t[f]) == t[f] { assert After(t, p)[f] == t[f]; }
      }
    }
  }

  ghost predicate AllSurvive(e: Env, t: Tree, muts: seq<seq<Change>>) {
    forall i | 0 <= i < |muts| :: Survives(e, t, muts[i])
  }

  lemma StepRestores(e: Env, t: Tree, s: State, i: nat, cs: seq<Change>)
    requires s.tree == t && Survives(e, t, cs)
    ensures Step(e, s, i, cs).tree == t
  {
    RestoresExactly(e, t, cs);
  }

  /** A step answers by the tree and the mutation alone. */
  function Answer(e: Env, t: Tree, i: nat, cs: seq<Change>): seq<Result> {
    match PlanOf(e, t, cs)
    case Unreadable => []
    case Vacuous => [VacuousAt(i)]
    case Ready(_, _, _, _) =>
      if e.test(Mutated(t, PlanOf(e, t, cs))).None? then []
      else [Tested(i, e.test(Mutated(t, PlanOf(e, t, cs))).value)]
  }

  lemma StepAnswers(e: Env, s: State, i: nat, cs: seq<Change>)
    requires !s.died
    ensures Step(e, s, i, cs).results == s.results + Answer(e, s.tree, i, cs)
    ensures Step(e, s, i, cs).died <==> Answer(e, s.tree, i, cs) == []
    ensures |Answer(e, s.tree, i, cs)| <= 1 && forall r | r in Answer(e, s.tree, i, cs) :: r.index == i
  {}

  /** For files that survive: whatever is chosen and whatever the tests do, dying included, the tree
      is the initial one after every mutation. */
  lemma {:induction false} TreeRestored(e: Env, t: Tree, muts: seq<seq<Change>>, only: set<nat>, n: nat)
    requires AllSurvive(e, t, muts) && n <= |muts|
    ensures DriveOf(e, t, muts, only, n).tree == t
  {
    if n > 0 {
      TreeRestored(e, t, muts, only, n - 1);
      StepRestores(e, t, DriveOf(e, t, muts, only, n - 1), n - 1, muts[n - 1]);
    }
  }

  function ChosenResult(only: set<nat>): Result -> bool { (r: Result) => Chosen(only, r.index) }

  lemma FilterOne(only: set<nat>, results: seq<Result>, more: seq<Result>, i: nat)
    requires |more| == 1 && more[0].index == i
    ensures Filter(ChosenResult(only), results + more)
         == Filter(ChosenResult(only), results) + if Chosen(only, i) then more else []
  {
    assert (results + more)[..|results|] == results;
  }

  lemma BothStep(e: Env, all: State, some: State, only: set<nat>, i: nat, cs: seq<Change>)
    requires all.tree == some.tree && !all.died && !some.died && some.results == Filter(ChosenResult(only), all.results)
    requires !Step(e, all, i, cs).died
    ensures var next := if Chosen(only, i) then Step(e, some, i, cs) else some;
      !next.died && next.results == Filter(ChosenResult(only), Step(e, all, i, cs).results)
  {
    StepAnswers(e, all, i, cs);
    StepAnswers(e, some, i, cs);
    FilterOne(only, all.results, Answer(e, all.tree, i, cs), i);
  }

  lemma {:induction false} SubsetOf(e: Env, t: Tree, muts: seq<seq<Change>>, every: set<nat>, only: set<nat>, n: nat)
    requires every == {} && AllSurvive(e, t, muts) && n <= |muts| && !DriveOf(e, t, muts, every, n).died
    ensures !DriveOf(e, t, muts, only, n).died
    ensures DriveOf(e, t, muts, only, n).results == Filter(ChosenResult(only), DriveOf(e, t, muts, every, n).results)
  {
    if n > 0 {
      SubsetOf(e, t, muts, every, only, n - 1);
      TreeRestored(e, t, muts, only, n - 1);
      TreeRestored(e, t, muts, every, n - 1);
      BothStep(e, DriveOf(e, t, muts, every, n - 1), DriveOf(e, t, muts, only, n - 1), only, n - 1, muts[n - 1]);
      DriveNext(e, t, muts, every, n - 1);
      DriveNext(e, t, muts, only, n - 1);
    }
  }

  /** Mutations do not meet: a run of some of them that does not die answers, for those, what a run of
      all of them answers. */
  lemma SubsetIsFilter(e: Env, t: Tree, muts: seq<seq<Change>>, only: set<nat>, n: nat)
    requires AllSurvive(e, t, muts) && n <= |muts| && !DriveOf(e, t, muts, {}, n).died
    ensures !DriveOf(e, t, muts, only, n).died
    ensures DriveOf(e, t, muts, only, n).results == Filter(ChosenResult(only), DriveOf(e, t, muts, {}, n).results)
  {
    SubsetOf(e, t, muts, {}, only, n);
  }
}
