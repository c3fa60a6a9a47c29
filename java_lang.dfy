/** The few pieces of the Java language the plugin's configuration objects rely on:
    nullable references, the NullPointerException a null argument raises, and
    String.replace(char, char). */
module JavaLang {

  /** A Java reference that may be null. */
  datatype Option<+T> = None | Some(value: T)

  /** The exceptions the modelled operations can raise. */
  datatype Exception = NullPointerException(message: Option<string>)

  /** How a void Java method ends: it returns normally or it throws. */
  datatype Outcome = Returned | Threw(exception: Exception)

  /** String.replace(oldChar, newChar): every occurrence of oldChar becomes newChar,
      every other character is kept in place. */
  function Replace(s: string, oldChar: char, newChar: char): (r: string)
    ensures |r| == |s|
    ensures forall i :: 0 <= i < |s| ==> r[i] == (if s[i] == oldChar then newChar else s[i])
    ensures oldChar != newChar ==> oldChar !in r
  {
    if s == [] then []
    else [if s[0] == oldChar then newChar else s[0]] + Replace(s[1..], oldChar, newChar)
  }

  /** Replacing a second time changes nothing: the first pass left no oldChar behind. */
  lemma {:induction false} ReplaceIdempotent(s: string, oldChar: char, newChar: char)
    ensures Replace(Replace(s, oldChar, newChar), oldChar, newChar) == Replace(s, oldChar, newChar)
  {
    if s != [] {
      ReplaceIdempotent(s[1..], oldChar, newChar);
    }
  }

  /** A string without oldChar comes back unchanged (so a module name that has no
      '-' derives to itself). */
  lemma {:induction false} ReplaceWithoutOldChar(s: string, oldChar: char, newChar: char)
    requires oldChar !in s
    ensures Replace(s, oldChar, newChar) == s
  {
    if s != [] {
      assert oldChar !in s[1..] by { assert forall i :: 0 <= i < |s| - 1 ==> s[1..][i] == s[i + 1]; }
      ReplaceWithoutOldChar(s[1..], oldChar, newChar);
    }
  }

  /** Replace distributes over concatenation: each part is rewritten on its own. */
  lemma {:induction false} ReplaceConcat(s: string, t: string, oldChar: char, newChar: char)
    ensures Replace(s + t, oldChar, newChar) == Replace(s, oldChar, newChar) + Replace(t, oldChar, newChar)
  {
    if s != [] {
      assert (s + t)[1..] == s[1..] + t;
      ReplaceConcat(s[1..], t, oldChar, newChar);
    }
  }
}
