/** Byte strings and the few operations on them that every component uses. */
module Text {

  datatype Option<+T> = None | Some(value: T)

  function Min(a: nat, b: nat): nat {
    if a <= b then a else b
  }

  /** The pieces of `parts`, one after the other. */
  function Flatten(parts: seq<string>): string {
    if parts == [] then "" else Flatten(parts[..|parts| - 1]) + parts[|parts| - 1]
  }

  lemma EmptyFlat()
    ensures Flatten([]) == ""
  {
  }

  lemma FlattenSnoc(parts: seq<string>, last: string)
    ensures Flatten(parts + [last]) == Flatten(parts) + last
  {
    assert (parts + [last])[..|parts|] == parts;
  }

  lemma {:induction false} FlattenAppend(left: seq<string>, right: seq<string>)
    ensures Flatten(left + right) == Flatten(left) + Flatten(right)
  {
    if right == [] {
      assert left + right == left;
    } else {
      var init, last := right[..|right| - 1], right[|right| - 1];
      assert right == init + [last];
      assert left + right == (left + init) + [last];
      FlattenAppend(left, init);
      FlattenSnoc(left + init, last);
      FlattenSnoc(init, last);
    }
  }

  lemma FlattenCons(first: string, rest: seq<string>)
    ensures Flatten([first] + rest) == first + Flatten(rest)
  {
    assert Flatten([first]) == first by {
      FlattenSnoc([], first);
      assert [] + [first] == [first];
    }
    FlattenAppend([first], rest);
  }

  /** The last `n` bytes of `s`, or all of it when it is shorter. */
  function LastBytes(s: string, n: nat): string {
    s[|s| - Min(|s|, n)..]
  }

  /** What read(2) returns on a regular file of contents `s` at offset `at`. */
  function ReadAt(s: string, at: nat, size: nat): string {
    if at >= |s| then "" else s[at..Min(|s|, at + size)]
  }

  /** No terminator of C strings occurs in `s`. */
  predicate NulFree(s: string) {
    forall i | 0 <= i < |s| :: s[i] != '\0'
  }
}
