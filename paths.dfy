/**
  Resolved file-system paths as `pathlib` sees them: a resolved absolute path
  is the sequence of its components (`[]` is the root `/`), with `str(p)`,
  `p.parents`, `p.relative_to(root)` and `p.name`.
*/
module Paths {
  import opened PyStr

  /** `str(p)` of a resolved absolute path. */
  function PathText(p: seq<string>): string {
    if p == [] then "/" else Slashed(p)
  }

  /** Each component behind a `/`. */
  function Slashed(p: seq<string>): string {
    if p == [] then [] else "/" + p[0] + Slashed(p[1..])
  }

  lemma {:induction false} SlashedAppend(p: seq<string>, q: seq<string>)
    ensures Slashed(p + q) == Slashed(p) + Slashed(q)
  {
    if p != [] {
      assert (p + q)[0] == p[0];
      assert (p + q)[1..] == p[1..] + q;
      SlashedAppend(p[1..], q);
    } else {
      assert p + q == q;
    }
  }

  /** `child.relative_to(root)` succeeds: `root`'s components begin `child`'s. */
  predicate IsUnder(root: seq<string>, child: seq<string>) {
    |root| <= |child| && child[..|root|] == root
  }

  lemma IsUnderTrans(a: seq<string>, b: seq<string>, c: seq<string>)
    requires IsUnder(a, b) && IsUnder(b, c)
    ensures IsUnder(a, c)
  {
    assert c[..|a|] == c[..|b|][..|a|];
  }

  /** `p.relative_to(root)`: the components after `root`. */
  function RelativeTo(root: seq<string>, p: seq<string>): (rel: seq<string>)
    requires IsUnder(root, p)
    ensures p == root + rel
  {
    p[|root|..]
  }

  /** `str()` of a relative path; the empty one is written `.`. */
  function RelText(rel: seq<string>): string {
    if rel == [] then "." else Join(rel, "/")
  }

  /** `p.name`: the last component, empty for the root. */
  function Name(p: seq<string>): string {
    if p == [] then "" else p[|p| - 1]
  }

  /** `p.parents`: every proper ancestor of `p`. */
  function Parents(p: seq<string>): set<seq<string>> {
    set k | 0 <= k < |p| :: p[..k]
  }

  /** Being `p` or one of its parents is the component test `IsUnder`. */
  lemma ParentOrSelf(root: seq<string>, p: seq<string>)
    ensures (root in Parents(p) || root == p) <==> IsUnder(root, p)
  {
    if IsUnder(root, p) && |root| < |p| {
      assert p[..|root|] in Parents(p);
    }
  }
}
