/** Small helpers shared by every component: optional values, the sandbox
    creation request that the tool servers send to the sandbox service, and the
    Python slices `s[:k]` and `s[-k:]` on sequences. */
module Common {

  datatype Option<+T> = None | Some(value: T)

  /** What a server asks the sandbox service for (`SandboxCreateConfiguration`):
      the sandbox name and the image it boots. Creating it is an opaque call. */
  datatype SandboxConfig = SandboxConfig(name: string, image: string)

  function Min(a: int, b: int): int
  {
    if a <= b then a else b
  }

  /** Python's `s[:k]` for k >= 0: the first min(k, |s|) elements. */
  function Prefix<T>(s: seq<T>, k: nat): (r: seq<T>)
    ensures |r| == Min(k, |s|)
    ensures forall i :: 0 <= i < |r| ==> r[i] == s[i]
  {
    if k <= |s| then s[..k] else s
  }

  /** Python's `s[-k:]` for k > 0: the last min(k, |s|) elements, in order. */
  function Last<T>(s: seq<T>, k: nat): (r: seq<T>)
    ensures |r| == Min(k, |s|)
    ensures forall i :: 0 <= i < |r| ==> r[i] == s[|s| - |r| + i]
  {
    if k <= |s| then s[|s| - k..] else s
  }

  /** Python's `sep.join(items)`: empty for no items, the item itself for
      one, and otherwise it starts with the first item. */
  function Join(items: seq<string>, sep: string): (r: string)
    ensures items == [] ==> r == ""
    ensures |items| == 1 ==> r == items[0]
    ensures |items| > 0 ==> |items[0]| <= |r| && r[..|items[0]|] == items[0]
  {
    if |items| == 0 then ""
    else if |items| == 1 then items[0]
    else items[0] + sep + Join(items[1..], sep)
  }

  /** `s.endswith(t)`. */
  predicate EndsWith<T(==)>(s: seq<T>, t: seq<T>)
  {
    |t| <= |s| && s[|s| - |t|..] == t
  }

  /** A joined list ends with its last item, whatever the separator. */
  lemma {:induction false} JoinEndsWithLast(items: seq<string>, sep: string)
    requires |items| > 0
    ensures EndsWith(Join(items, sep), items[|items| - 1])
    decreases |items|
  {
    if |items| > 1 {
      var rest := Join(items[1..], sep);
      var last := items[|items| - 1];
      JoinEndsWithLast(items[1..], sep);
      assert items[1..][|items[1..]| - 1] == last;
      var whole := items[0] + sep + rest;
      assert whole[|whole| - |last|..] == rest[|rest| - |last|..];
    }
  }
}
