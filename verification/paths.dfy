/** Where a user-supplied path lands inside an account's storage. */
module Paths {

  datatype Option<+T> = None | Some(value: T)

  /** A path as the parts between its slashes. */
  type Path = seq<string>

  /** Lexical cleaning of a rooted path: empty parts and dots go, and a double dot
      takes the part before it away, if there is one. */
  function Clean(p: Path): (r: Path)
    ensures forall i :: 0 <= i < |r| ==> r[i] != "" && r[i] != "." && r[i] != ".."
  {
    if p == [] then []
    else
      var k := |p| - 1;
      var front := Clean(p[..k]);
      if p[k] == "" || p[k] == "." then front
      else if p[k] == ".." then (if front == [] then [] else front[..|front| - 1])
      else front + [p[k]]
  }

  predicate ValidUser(user: string) {
    user != "" && user != "." && user != ".." && '/' !in user && '\\' !in user && '\0' !in user
  }

  function UserDir(user: string): Path {
    ["users", user]
  }

  /** The file a path names, if it is strictly inside the account's own directory. */
  function Resolve(user: string, rel: Path): (r: Option<Path>)
    ensures r.Some? ==> ValidUser(user) && UserDir(user) < r.value
  {
    if !ValidUser(user) then None
    else
      var full := Clean(UserDir(user) + rel);
      if UserDir(user) < full then Some(full) else None
  }

  /** Cleaning is idempotent: a clean path names itself. */
  lemma {:induction false} CleanIsClean(p: Path)
    requires forall s :: s in p ==> s != "" && s != "." && s != ".."
    ensures Clean(p) == p
  {
    if p != [] {
      var k := |p| - 1;
      assert forall s :: s in p[..k] ==> s in p;
      assert p[k] in p;
      CleanIsClean(p[..k]);
      assert p == p[..k] + [p[k]];
    }
  }

  /** A dot in front of a path does not change the file it names. */
  lemma {:induction false} DotIsSame(base: Path, rel: Path)
    ensures Clean(base + ["."] + rel) == Clean(base + rel)
  {
    var p, q := base + ["."] + rel, base + rel;
    if rel == [] {
      assert p[..|p| - 1] == base && q == base;
    } else {
      var k := |rel| - 1;
      assert p[..|p| - 1] == base + ["."] + rel[..k];
      assert q[..|q| - 1] == base + rel[..k];
      DotIsSame(base, rel[..k]);
    }
  }

  /** A path with a dot in front is spelled differently and names the same file. */
  lemma {:induction false} DottedNamesSame(user: string, rel: Path)
    ensures Resolve(user, ["."] + rel) == Resolve(user, rel) && ["."] + rel != rel
  {
    DotIsSame(UserDir(user), rel);
    assert UserDir(user) + ["."] + rel == UserDir(user) + (["."] + rel);
  }
}
