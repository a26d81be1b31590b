/** Recursive merging of configuration trees: environment overrides on top of the YAML file. */
module ConfigMerge {

  datatype Tree = Leaf(value: string) | Dict(entries: map<string, Tree>)

  /** What the merge is to compute; the loop of `DeepMerge` is proved against it. */
  function Merge(base: map<string, Tree>, override: map<string, Tree>): map<string, Tree>
    decreases Dict(override), 1
  {
    map key | key in base.Keys + override.Keys ::
      if key in override then MergedEntry(base, override, key) else base[key]
  }

  function MergedEntry(base: map<string, Tree>, override: map<string, Tree>, key: string): Tree
    requires key in override
    decreases Dict(override), 0
  {
    if override[key].Dict? && key in base && base[key].Dict?
    then Dict(Merge(base[key].entries, override[key].entries))
    else override[key]
  }

  /** The copy of the base once the keys outside `todo` have been assigned. */
  ghost predicate MergedSoFar(
      base: map<string, Tree>, override: map<string, Tree>, todo: set<string>, merged: map<string, Tree>)
  {
    && merged.Keys == base.Keys + (override.Keys - todo)
    && forall key | key in merged ::
         merged[key] == if key in override.Keys - todo then MergedEntry(base, override, key) else base[key]
  }

  lemma MergedInFull(base: map<string, Tree>, override: map<string, Tree>, merged: map<string, Tree>)
    requires MergedSoFar(base, override, {}, merged)
    ensures merged == Merge(base, override)
  {
    var goal := Merge(base, override);
    assert merged.Keys == goal.Keys;
    forall key | key in merged ensures merged[key] == goal[key] {}
  }

  /** Assigns the override's keys, in any order, into a copy of the base. */
  method DeepMerge(base: map<string, Tree>, override: map<string, Tree>) returns (merged: map<string, Tree>)
    ensures merged == Merge(base, override)
    decreases Dict(override)
  {
    merged := base;
    var todo := override.Keys;
    while todo != {}
      invariant todo <= override.Keys
      invariant MergedSoFar(base, override, todo, merged)
      decreases |todo|
    {
      var key :| key in todo;
      var value := override[key];
      if value.Dict? && key in merged && merged[key].Dict? {
        var inner := DeepMerge(merged[key].entries, value.entries);
        value := Dict(inner);
      }
      assert value == MergedEntry(base, override, key);
      merged := merged[key := value];
      todo := todo - {key};
    }
    MergedInFull(base, override, merged);
  }

  // ---- An independent reading of a tree: what is found by following a path of keys -----------

  datatype Found = Missing | Blocked | IsLeaf(value: string) | IsDict

  /** Missing: some dictionary on the way lacks the next key. Blocked: the way runs into a leaf. */
  function Look(tree: map<string, Tree>, path: seq<string>): Found
    decreases |path|
  {
    if path == [] then IsDict
    else if path[0] !in tree then Missing
    else match tree[path[0]]
      case Leaf(value) => if |path| == 1 then IsLeaf(value) else Blocked
      case Dict(entries) => Look(entries, path[1..])
  }

  /** What a reader of the configuration can tell: both ways of not being there look the same. */
  function Visible(found: Found): Found {
    if found.Blocked? then Missing else found
  }

  /** The override decides every path on which it says anything; everywhere else the base shows through. */
  lemma {:induction false} OverrideWinsElseBaseSurvives(
      base: map<string, Tree>, override: map<string, Tree>, path: seq<string>)
    ensures Visible(Look(Merge(base, override), path))
            == if Look(override, path).Missing? then Visible(Look(base, path)) else Visible(Look(override, path))
    decreases |path|
  {
    if path == [] {
    } else {
      var key := path[0];
      if key in override && override[key].Dict? && key in base && base[key].Dict? {
        OverrideWinsElseBaseSurvives(base[key].entries, override[key].entries, path[1..]);
      }
    }
  }

  lemma {:induction false} MergeWithItself(tree: map<string, Tree>)
    ensures Merge(tree, tree) == tree
    decreases Dict(tree)
  {
    forall key | key in tree ensures Merge(tree, tree)[key] == tree[key] {
      if tree[key].Dict? {
        MergeWithItself(tree[key].entries);
      }
    }
  }

  lemma {:induction false} MergeAgain(base: map<string, Tree>, override: map<string, Tree>)
    ensures Merge(Merge(base, override), override) == Merge(base, override)
    decreases Dict(override)
  {
    var once := Merge(base, override);
    forall key | key in once ensures Merge(once, override)[key] == once[key] {
      if key in override && override[key].Dict? {
        if key in base && base[key].Dict? {
          MergeAgain(base[key].entries, override[key].entries);
        } else {
          MergeWithItself(override[key].entries);
        }
      }
    }
  }
}
