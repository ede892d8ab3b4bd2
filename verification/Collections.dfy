/**
 What several modules need of values, sequences and strings.
 */
module Collections {

  datatype Option<T> = None | Some(value: T)

  predicate IsDigit(c: char) { '0' <= c <= '9' }

  // The character at position i of a C string: NUL at its end.
  function CharAt(s: string, i: nat): char { if i < |s| then s[i] else '\0' }

  lemma Assoc<T>(a: seq<T>, b: seq<T>, c: seq<T>)
    ensures (a + b) + c == a + (b + c)
  {
  }
}
