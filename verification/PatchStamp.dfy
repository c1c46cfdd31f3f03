/** The Crashpad bootstrap tool keeps a source checkout at a pinned revision with a patch applied
    and remembers in a stamp file that it has done so (tools/bootstrap-crashpad/main.py). Any
    step may fail, and the process may be killed between any two steps or within one. */
module PatchStamp {
  import opened Options

  type Revision = string
  /** Contents of the patch file; empty also stands for a missing file. */
  type Patch = string
  /** Tracked and untracked, but not ignored, files. */
  type Tree = map<string, string>

  /** What the stamp records. The digest of the patch stands for its contents. */
  datatype Stamp = Stamp(pinned: Revision, patch: Patch)

  /** Git as far as the tool relies on it. */
  datatype Git = Git(
    pristine: Revision -> Tree,
    apply: (Patch, Tree) -> Option<Tree>,
    reversible: (Patch, Tree) -> bool)

  /** A patch that has just been applied can be reversed. */
  ghost predicate Sane(git: Git) {
    forall p, t, t' :: git.apply(p, t) == Some(t') ==> git.reversible(p, t')
  }

  predicate Applied(git: Git, patch: Patch, tree: Tree) {
    patch == "" || git.reversible(patch, tree)
  }

  /** The tree that a call is to produce, if the patch applies to the pinned revision. */
  function Patched(git: Git, pinned: Revision, patch: Patch): Option<Tree> {
    if patch == "" then Some(git.pristine(pinned)) else git.apply(patch, git.pristine(pinned))
  }

  datatype Result = Done | Failed | Killed

  /** How each step of a call would end, if the call gets that far. */
  datatype Steps = Steps(reading: Result, removing: Result, finding: Result, checkout: Result, cleaning: Result,
                         syncing: Result, applying: Result, stamping: Result)

  predicate SomeKilled(s: Steps) {
    Killed in [s.reading, s.removing, s.finding, s.checkout, s.cleaning, s.syncing, s.applying, s.stamping]
  }

  predicate SomeFailed(s: Steps) {
    Failed in [s.reading, s.removing, s.finding, s.checkout, s.cleaning, s.syncing, s.applying, s.stamping]
  }

  /** How a call ends: normally with or without work, with an exception, or not at all. */
  datatype Outcome = UpToDate | Restored | Raised | Interrupted

  function Ended(r: Result): Outcome {
    if r.Killed? then Interrupted else Raised
  }

  class Checkout {
    const git: Git
    var head: Revision
    var tree: Tree
    /** None also stands for a stamp that cannot be read. */
    var stamp: Option<Stamp>

    constructor (git: Git, head: Revision, tree: Tree)
      ensures this.git == git && this.head == head && this.tree == tree && stamp == None
    {
      this.git, this.head, this.tree, stamp := git, head, tree, None;
    }

    /** What the stamp says is so, exactly. */
    ghost predicate StampIsTrue()
      reads this
    {
      stamp.Some? ==> head == stamp.value.pinned && Patched(git, stamp.value.pinned, stamp.value.patch) == Some(tree)
    }

    predicate IsCurrent(pinned: Revision, patch: Patch)
      reads this
    {
      stamp == Some(Stamp(pinned, patch)) && head == pinned && Applied(git, patch, tree)
    }

    // ---- the steps ----

    method RemoveStamp(r: Result)
      modifies this`stamp
      ensures r.Done? ==> stamp == None
      ensures stamp == None || stamp == old(stamp)
    {
      var removed: bool := *;
      if r.Done? || removed {
        stamp := None;
      }
    }

    /** Forced checkout of a commit: tracked files get its contents, untracked ones stay. */
    method ForceCheckout(pinned: Revision, r: Result)
      modifies this`head, this`tree
      ensures r.Done? ==>
        head == pinned && forall f <- git.pristine(pinned) :: f in tree && tree[f] == git.pristine(pinned)[f]
    {
      head, tree := *, *;
      if r.Done? {
        head, tree := pinned, tree + git.pristine(pinned);
      }
    }

    /** Removal of untracked files. */
    method Clean(r: Result)
      modifies this`tree
      ensures r.Done? ==> tree == map f | f in old(tree) && f in git.pristine(head) :: old(tree)[f]
    {
      if r.Done? {
        tree := map f | f in tree && f in git.pristine(head) :: tree[f];
      } else {
        tree := *;
      }
    }

    /** Finding may include fetching the commit; syncing the dependencies comes last. */
    method RestorePristineSource(pinned: Revision, s: Steps) returns (r: Result)
      modifies this`head, this`tree
      ensures r.Done? <==> s.finding.Done? && s.checkout.Done? && s.cleaning.Done? && s.syncing.Done?
      ensures r.Done? ==> head == pinned && tree == git.pristine(pinned)
      ensures r in [Done, s.finding, s.checkout, s.cleaning, s.syncing]
      ensures !s.finding.Done? ==> head == old(head) && tree == old(tree)
    {
      if !s.finding.Done? {
        return s.finding;
      }
      ForceCheckout(pinned, s.checkout);
      if !s.checkout.Done? {
        return s.checkout;
      }
      Clean(s.cleaning);
      if !s.cleaning.Done? {
        return s.cleaning;
      }
      return s.syncing;
    }

    /** `git apply` either applies the patch or leaves the tree alone, unless it is killed. */
    method ApplyPatch(patch: Patch, applying: Result) returns (r: Result)
      modifies this`tree
      ensures r.Done? <==> applying.Done? && git.apply(patch, old(tree)).Some?
      ensures r.Done? ==> git.apply(patch, old(tree)) == Some(tree)
      ensures r.Failed? ==> tree == old(tree)
      ensures r.Killed? <==> applying.Killed?
    {
      if applying.Killed? {
        tree := *;
        return Killed;
      }
      match git.apply(patch, tree)
      case Some(t) =>
        if applying.Done? {
          tree := t;
        }
        return applying;
      case None =>
        return Failed;
    }

    /** Written to a temporary file that then replaces the stamp: all or nothing. */
    method WriteStamp(expected: Stamp, r: Result)
      modifies this`stamp
      ensures r.Done? ==> stamp == Some(expected)
      ensures stamp == Some(expected) || stamp == old(stamp)
    {
      var replaced: bool := *;
      if r.Done? || replaced {
        stamp := Some(expected);
      }
    }

    method ApplyAndStamp(pinned: Revision, patch: Patch, s: Steps) returns (o: Outcome)
      requires stamp == None && head == pinned && tree == git.pristine(pinned)
      modifies this`tree, this`stamp
      ensures StampIsTrue()
      ensures o.Restored? <==>
        s.stamping.Done? && (patch == "" || (s.applying.Done? && git.apply(patch, git.pristine(pinned)).Some?))
      ensures o.Restored? ==> stamp == Some(Stamp(pinned, patch)) && Patched(git, pinned, patch) == Some(tree)
      ensures o.Restored? || o.Raised? || o.Interrupted?
      ensures o.Interrupted? ==> s.applying.Killed? || s.stamping.Killed?
      ensures o.Raised? ==> s.applying.Failed? || s.stamping.Failed? || Patched(git, pinned, patch) == None
    {
      if patch != "" {
        var r := ApplyPatch(patch, s.applying);
        if !r.Done? {
          return Ended(r);
        }
      }
      WriteStamp(Stamp(pinned, patch), s.stamping);
      o := if s.stamping.Done? then Restored else Ended(s.stamping);
    }

    /** The whole call. However it ends, a true stamp stays true. The checkout is left alone if it
        is found up to date: the stamp says what is wanted, HEAD is the pinned revision and the
        patch can be reversed. Otherwise it is restored if no step fails and the patch applies. */
    method EnsurePatchedSource(pinned: Revision, patch: Patch, s: Steps) returns (o: Outcome)
      requires Sane(git)
      modifies this
      ensures old(StampIsTrue()) ==> StampIsTrue()
      ensures o.UpToDate? <==>
        && s.reading.Done? && old(stamp) == Some(Stamp(pinned, patch)) && old(head) == pinned
        && (patch == "" || git.reversible(patch, old(tree)))
      ensures o.Restored? <==>
        && s.reading.Done? && !o.UpToDate? && s.removing.Done?
        && s.finding.Done? && s.checkout.Done? && s.cleaning.Done? && s.syncing.Done? && s.stamping.Done?
        && (patch == "" || (s.applying.Done? && git.apply(patch, git.pristine(pinned)).Some?))
      ensures o.Interrupted? ==> SomeKilled(s)
      ensures o.Raised? ==> SomeFailed(s) || (patch != "" && git.apply(patch, git.pristine(pinned)) == None)
      ensures o.UpToDate? || o.Restored? ==>
        head == pinned && stamp == Some(Stamp(pinned, patch)) && (patch == "" || git.reversible(patch, tree))
      ensures o.Restored? ==>
        if patch == "" then tree == git.pristine(pinned) else git.apply(patch, git.pristine(pinned)) == Some(tree)
      ensures !s.reading.Done? || o.UpToDate? ==> head == old(head) && tree == old(tree) && stamp == old(stamp)
      // a killed or failed call that has begun to change the tree leaves no old stamp behind
      ensures stamp.Some? ==> (stamp == old(stamp) && head == old(head) && tree == old(tree)) || StampIsTrue()
    {
      if !s.reading.Done? {
        return Ended(s.reading);
      }
      if IsCurrent(pinned, patch) {
        return UpToDate;
      }
      RemoveStamp(s.removing);
      if !s.removing.Done? {
        return Ended(s.removing);
      }
      var r := RestorePristineSource(pinned, s);
      if !r.Done? {
        return Ended(r);
      }
      o := ApplyAndStamp(pinned, patch, s);
    }

    /** After a call that returns normally the tree is exactly the pinned revision plus the patch,
        unless it was accepted as up to date although it was something else. */
    method EnsureExactly(pinned: Revision, patch: Patch, s: Steps) returns (o: Outcome)
      requires Sane(git)
      modifies this
      ensures o.UpToDate? || o.Restored? ==>
        (Patched(git, pinned, patch) == Some(tree) <==> o.Restored? || Patched(git, pinned, patch) == Some(old(tree)))
    {
      o := EnsurePatchedSource(pinned, patch, s);
    }

    /** `git reset --hard` takes the patch out of the tree but leaves the stamp: a call notices,
        and if it returns normally the patch is back. */
    method EnsureAfterReset(pinned: Revision, patch: Patch, s: Steps) returns (o: Outcome)
      requires Sane(git) && stamp == Some(Stamp(pinned, patch)) && head == pinned && tree == git.pristine(pinned)
      requires patch != "" && !git.reversible(patch, tree)
      modifies this
      ensures !o.UpToDate? && (o.Restored? ==> Patched(git, pinned, patch) == Some(tree))
    {
      o := EnsurePatchedSource(pinned, patch, s);
    }

    /** Any number of calls, each killed, failed or completed, for changing pins and patches, and
        nobody else touching the checkout: whenever there is a stamp, the tree is exactly what
        the stamp says. */
    method Life(calls: seq<Stamp>) returns (outcomes: seq<Outcome>)
      requires Sane(git) && StampIsTrue()
      modifies this
      ensures StampIsTrue() && |outcomes| == |calls|
      ensures calls != [] && (outcomes[|calls| - 1].UpToDate? || outcomes[|calls| - 1].Restored?) ==>
        var last := calls[|calls| - 1];
        head == last.pinned && Patched(git, last.pinned, last.patch) == Some(tree)
    {
      outcomes := [];
      while |outcomes| < |calls|
        invariant StampIsTrue() && |outcomes| <= |calls|
        invariant outcomes != [] && (outcomes[|outcomes| - 1].UpToDate? || outcomes[|outcomes| - 1].Restored?) ==>
          var last := calls[|outcomes| - 1];
          head == last.pinned && Patched(git, last.pinned, last.patch) == Some(tree)
      {
        var next := calls[|outcomes|];
        var s: Steps := *;
        var o := EnsurePatchedSource(next.pinned, next.patch, s);
        outcomes := outcomes + [o];
      }
    }

    ghost function Disk(): (Revision, Tree, Option<Stamp>)
      reads this
    {
      (head, tree, stamp)
    }

    /** A call right after one that returned normally changes nothing, however it ends. */
    method CallTwice(pinned: Revision, patch: Patch)
      returns (first: Outcome, second: Outcome, ghost between: (Revision, Tree, Option<Stamp>))
      requires Sane(git)
      modifies this
      ensures first.UpToDate? || first.Restored? ==> Disk() == between && !second.Restored?
    {
      var s: Steps, s': Steps := *, *;
      first := EnsurePatchedSource(pinned, patch, s);
      between := Disk();
      second := EnsurePatchedSource(pinned, patch, s');
    }
  }

  /** A patch that changes the contents of one file. */
  const ONE_LINE_GIT := Git(
    _ => map["a" := "old"],
    (_, t: Tree) => if "a" in t && t["a"] == "old" then Some(t["a" := "new"]) else None,
    (_, t: Tree) => "a" in t && t["a"] == "new")

  /** An edit that leaves the patch in place is not noticed: the call accepts the checkout. */
  method EditedTreeIsAccepted() returns (checkout: Checkout, o: Outcome)
    ensures o.UpToDate? && checkout.git == ONE_LINE_GIT && checkout.stamp == Some(Stamp("pinned", "patch"))
    ensures Patched(checkout.git, "pinned", "patch") == Some(map["a" := "new"]) != Some(checkout.tree)
  {
    checkout := new Checkout(ONE_LINE_GIT, "pinned", map["a" := "new"]);
    checkout.stamp := Some(Stamp("pinned", "patch"));
    assert map["a" := "old"]["a" := "new"] == map["a" := "new"];
    assert checkout.StampIsTrue();
    checkout.tree := checkout.tree["b" := "edit"];
    assert "b" in checkout.tree;
    o := checkout.EnsurePatchedSource("pinned", "patch", Steps(Done, Done, Done, Done, Done, Done, Done, Done));
  }
}
