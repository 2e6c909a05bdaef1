/** Small shared vocabulary: optional values, results and the sequence 1, 2, ..., n. */
module Common {

  /** The largest image that is passed on: 64 MiB. */
  const MAX_SCREENSHOT_BYTES: nat := 0x400_0000

  predicate IsAbsolute(path: string) {
    path != "" && path[0] == '/'
  }

  datatype Option<+T> = None | Some(value: T)

  datatype Result<+T, +E> = Success(value: T) | Failure(error: E)

  /** The numbers 1..n in order: how sessions, losses and closes are numbered. */
  function Upto(n: nat): (r: seq<nat>)
    ensures |r| == n
  {
    seq(n, i => i + 1)
  }

  lemma UptoSnoc(n: nat)
    ensures Upto(n + 1) == Upto(n) + [n + 1]
  {
  }

  /** Drops every element equal to the one before it. */
  function Destutter<T(==)>(s: seq<T>): (r: seq<T>)
    ensures s == [] <==> r == []
    ensures s != [] ==> r[|r| - 1] == s[|s| - 1]
  {
    if |s| <= 1 then s
    else
      var front := Destutter(s[..|s| - 1]);
      if s[|s| - 1] == s[|s| - 2] then front else front + [s[|s| - 1]]
  }

  lemma DestutterSnoc<T>(s: seq<T>, x: T)
    ensures Destutter(s + [x]) ==
            if s != [] && s[|s| - 1] == x then Destutter(s) else Destutter(s) + [x]
  {
    assert (s + [x])[..|s|] == s;
  }
}
