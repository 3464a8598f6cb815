/** The path check both routers' blob endpoints rely on: a path is accepted when
    the FILE_KEY pattern matches it and the CONSECUTIVE_DOTS pattern does not.
    FILE_KEY is defined in src/lib/utils, which is not part of this model, so it
    is a parameter `fileKey` here and every property below holds for any
    FILE_KEY whatsoever. CONSECUTIVE_DOTS is modelled as "two '.' characters
    side by side somewhere in the path". */
module Paths {

  /** CONSECUTIVE_DOTS matches `p`. */
  predicate HasConsecutiveDots(p: string)
  {
    |p| >= 2 && ((p[0] == '.' && p[1] == '.') || HasConsecutiveDots(p[1..]))
  }

  /** The position-wise reading of CONSECUTIVE_DOTS agrees with the scan. */
  lemma {:induction false} ConsecutiveDotsAt(p: string)
    ensures HasConsecutiveDots(p) <==> exists i :: 0 <= i < |p| - 1 && p[i] == '.' && p[i + 1] == '.'
  {
    if |p| >= 2 {
      ConsecutiveDotsAt(p[1..]);
      if HasConsecutiveDots(p) && !(p[0] == '.' && p[1] == '.') {
        var i :| 0 <= i < |p[1..]| - 1 && p[1..][i] == '.' && p[1..][i + 1] == '.';
        assert p[i + 1] == '.' && p[i + 2] == '.';
      }
      if exists i :: 0 <= i < |p| - 1 && p[i] == '.' && p[i + 1] == '.' {
        var i :| 0 <= i < |p| - 1 && p[i] == '.' && p[i + 1] == '.';
        if i > 0 {
          assert p[1..][i - 1] == '.' && p[1..][i] == '.';
        }
      }
    }
  }

  /** A path passes the check of api.ts: FILE_KEY matches and CONSECUTIVE_DOTS does not. */
  predicate Accepted(fileKey: string -> bool, p: string)
  {
    fileKey(p) && !HasConsecutiveDots(p)
  }

  /** `/${req.params[0]}`: the blob key of the control-plane blob routes. */
  function BlobKey(param: string): (p: string)
    ensures |p| == |param| + 1 && p[0] == '/' && p[1..] == param
  {
    "/" + param
  }

  /** No path containing ".." anywhere is accepted, whatever FILE_KEY is. */
  lemma {:induction false} DotsAnywhereRejected(fileKey: string -> bool, a: string, b: string)
    ensures !Accepted(fileKey, a + ".." + b)
  {
    var p := a + ".." + b;
    assert p[|a|] == '.' && p[|a| + 1] == '.';
    ConsecutiveDotsAt(p);
  }

  /** Whether a blob key built from a route parameter is accepted is decided by
      FILE_KEY and by the parameter itself holding "..". */
  lemma {:induction false} BlobKeyAccepted(fileKey: string -> bool, param: string)
    ensures Accepted(fileKey, BlobKey(param)) <==> fileKey(BlobKey(param)) && !HasConsecutiveDots(param)
  {
  }

  /** The examples of the path rule: traversal and a dot run are rejected for any
      FILE_KEY; a plain nested file is accepted exactly when FILE_KEY matches it. */
  lemma PathExamples(fileKey: string -> bool)
    ensures !Accepted(fileKey, "/foo/../bar")
    ensures !Accepted(fileKey, "/foo..bar")
    ensures Accepted(fileKey, "/a/b/c.txt") <==> fileKey("/a/b/c.txt")
  {
  }
}
