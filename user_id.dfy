/** `to_id`, the normalisation both request handlers apply to a player name before using
    it as the table key and in the Pokémon Showdown URL. */
module UserId {
  import opened Sequences

  predicate IsAsciiAlphanumeric(c: char) {
    ('a' <= c <= 'z') || ('A' <= c <= 'Z') || ('0' <= c <= '9')
  }

  /** Lower-case letters and digits only. */
  predicate IsIdChar(c: char) {
    ('a' <= c <= 'z') || ('0' <= c <= '9')
  }

  /** `char::to_lowercase` restricted to ASCII: capitals become small letters, every
      other character is left as it is. */
  function ToLowerAscii(c: char): (l: char)
    ensures 'A' <= c <= 'Z' ==> 'a' <= l <= 'z' && l as int - c as int == 32
    ensures !('A' <= c <= 'Z') ==> l == c
  {
    if 'A' <= c <= 'Z' then (c as int + 32) as char else c
  }

  /** `str::to_lowercase`, character by character. */
  function Lowercase(s: string): (l: string)
    ensures |l| == |s|
    ensures forall i :: 0 <= i < |s| ==> l[i] == ToLowerAscii(s[i])
    decreases |s|
  {
    if s == [] then [] else [ToLowerAscii(s[0])] + Lowercase(s[1..])
  }

  /** `.filter(|c| c.is_ascii_alphanumeric()).collect()`. */
  function KeepAlphanumeric(s: string): string
    decreases |s|
  {
    if s == [] then []
    else if IsAsciiAlphanumeric(s[0]) then [s[0]] + KeepAlphanumeric(s[1..])
    else KeepAlphanumeric(s[1..])
  }

  /** The filter keeps exactly the ASCII letters and digits, in their order. */
  lemma {:induction false} KeepAlphanumericSpec(s: string)
    ensures IsSubsequence(KeepAlphanumeric(s), s)
    ensures forall c :: c in KeepAlphanumeric(s) <==> c in s && IsAsciiAlphanumeric(c)
    decreases |s|
  {
    if s != [] {
      KeepAlphanumericSpec(s[1..]);
      assert forall c :: c in s <==> c == s[0] || c in s[1..];
    }
  }

  /** `to_id`: lower-case the name, then keep only ASCII letters and digits. */
  function ToId(s: string): string {
    KeepAlphanumeric(Lowercase(s))
  }

  /** An id is made of lower-case letters and digits, taken in order from the lowered
      name. */
  lemma ToIdSpec(s: string)
    ensures IsSubsequence(ToId(s), Lowercase(s))
    ensures forall i :: 0 <= i < |ToId(s)| ==> IsIdChar(ToId(s)[i])
  {
    var lower, id := Lowercase(s), ToId(s);
    KeepAlphanumericSpec(lower);
    forall i | 0 <= i < |id| ensures IsIdChar(id[i]) {
      assert id[i] in id;
      var j :| 0 <= j < |lower| && lower[j] == id[i];
      assert lower[j] == ToLowerAscii(s[j]);
    }
  }

  lemma {:induction false} KeepAlphanumericAppend(a: string, b: string)
    ensures KeepAlphanumeric(a + b) == KeepAlphanumeric(a) + KeepAlphanumeric(b)
    decreases |a|
  {
    if a == [] {
      assert a + b == b;
    } else {
      assert (a + b)[0] == a[0];
      assert (a + b)[1..] == a[1..] + b;
      KeepAlphanumericAppend(a[1..], b);
    }
  }

  lemma {:induction false} LowercaseAppend(a: string, b: string)
    ensures Lowercase(a + b) == Lowercase(a) + Lowercase(b)
  {
    assert Lowercase(a + b) == Lowercase(a) + Lowercase(b) by {
      forall i | 0 <= i < |a + b| ensures Lowercase(a + b)[i] == (Lowercase(a) + Lowercase(b))[i] {
        if i < |a| { assert (a + b)[i] == a[i]; } else { assert (a + b)[i] == b[i - |a|]; }
      }
    }
  }

  /** The id of a concatenation is the concatenation of the ids: the characters kept
      stay in their order. */
  lemma ToIdAppend(a: string, b: string)
    ensures ToId(a + b) == ToId(a) + ToId(b)
  {
    LowercaseAppend(a, b);
    KeepAlphanumericAppend(Lowercase(a), Lowercase(b));
  }

  lemma {:induction false} KeepAlphanumericOfIdChars(s: string)
    requires forall i :: 0 <= i < |s| ==> IsIdChar(s[i])
    ensures KeepAlphanumeric(s) == s
    ensures Lowercase(s) == s
    decreases |s|
  {
    if s != [] {
      KeepAlphanumericOfIdChars(s[1..]);
      assert s == [s[0]] + s[1..];
    }
  }

  /** Normalising twice is normalising once. */
  lemma ToIdIdempotent(s: string)
    ensures ToId(ToId(s)) == ToId(s)
  {
    ToIdSpec(s);
    KeepAlphanumericOfIdChars(ToId(s));
  }

  // The examples below take their strings as parameters fixed by `requires`: applied to
  // string literals directly, the recursive definitions are unfolded in full by the
  // verifier, which is far more costly than the proofs given here.
  lemma LowercaseExample(s: string, t: string)
    requires s == "The_Brucey" && t == "the_brucey"
    ensures Lowercase(s) == t
  {
    var a, b := s[..5], s[5..];
    assert s == a + b;
    LowercaseAppend(a, b);
    var la, lb := Lowercase(a), Lowercase(b);
    forall i | 0 <= i < 5 ensures la[i] == t[i] {
      assert la[i] == ToLowerAscii(a[i]);
    }
    forall i | 0 <= i < 5 ensures lb[i] == t[5 + i] {
      assert lb[i] == ToLowerAscii(b[i]);
    }
    assert t == t[..5] + t[5..];
  }

  lemma KeepAlphanumericExample(s: string, t: string)
    requires s == "the_brucey" && t == "thebrucey"
    ensures KeepAlphanumeric(s) == t
  {
    var x, y, z := s[..3], s[3..4], s[4..];
    assert s == x + (y + z);
    assert t == x + z;
    KeepAlphanumericOfIdChars(x);
    KeepAlphanumericOfIdChars(z);
    assert KeepAlphanumeric(y) == [];
    KeepAlphanumericAppend(y, z);
    KeepAlphanumericAppend(x, y + z);
  }

  /** "The_Brucey" and "thebrucey" name the same record. */
  lemma ToIdExample(name: string, id: string)
    requires name == "The_Brucey" && id == "thebrucey"
    ensures ToId(name) == ToId(id) == id
  {
    var lower := "the_brucey";
    LowercaseExample(name, lower);
    KeepAlphanumericExample(lower, id);
    ToIdIdempotent(name);
  }
}
