/**
 * Phone-number normalisation of the bulk-send handler: drop every space,
 * keep the last nine characters (Python's `[-9:]` slice) and prefix the
 * country code "254".
 */
module Phone {

  const CountryCode: string := "254"

  /** `s.replace(" ", "")`: every space character removed, nothing else touched. */
  function RemoveSpaces(s: string): (r: string)
    ensures ' ' !in r
    ensures |r| <= |s|
  {
    if s == [] then []
    else if s[0] == ' ' then RemoveSpaces(s[1..])
    else [s[0]] + RemoveSpaces(s[1..])
  }

  /** Python's `s[start:]`: a negative start counts from the end and is clamped at 0. */
  function PySliceFrom(s: string, start: int): (r: string)
    ensures |r| <= |s| && r == s[|s| - |r|..]
    ensures start < 0 ==> |r| == (if |s| + start < 0 then |s| else -start)
    ensures start >= 0 ==> |r| == (if start > |s| then 0 else |s| - start)
  {
    var from := if start < 0 then (if |s| + start < 0 then 0 else |s| + start)
                else (if start > |s| then |s| else start);
    s[from..]
  }

  /** The expression `"{}{}".format("254", phone_number.replace(" ","")[-9:])`. */
  function Normalize(raw: string): (r: string)
    ensures 3 <= |r| <= 12 && r[..3] == CountryCode && ' ' !in r
  {
    CountryCode + PySliceFrom(RemoveSpaces(raw), -9)
  }

  /** The last nine characters, or the whole string when it is shorter. */
  function LastNine(t: string): string {
    if |t| >= 9 then t[|t| - 9..] else t
  }

  /** Normalisation is "254" followed by the last nine space-free characters (all of them if fewer). */
  lemma NormalizeIsPrefixedLastNine(raw: string)
    ensures Normalize(raw) == CountryCode + LastNine(RemoveSpaces(raw))
    ensures |Normalize(raw)| == 3 + (if |RemoveSpaces(raw)| >= 9 then 9 else |RemoveSpaces(raw)|)
  {
    var t := RemoveSpaces(raw);
    assert PySliceFrom(t, -9) == LastNine(t);
  }

  /** Removing spaces from a string that has none gives the string back. */
  lemma {:induction false} RemoveSpacesIdentity(s: string)
    requires ' ' !in s
    ensures RemoveSpaces(s) == s
  {
    if s != [] {
      assert s[0] != ' ';
      assert ' ' !in s[1..] by {
        forall k | 0 <= k < |s[1..]| ensures s[1..][k] != ' ' {
          assert s[1..][k] == s[k + 1];
        }
      }
      RemoveSpacesIdentity(s[1..]);
      assert s == [s[0]] + s[1..];
    }
  }

  /** Space removal works piecewise over a concatenation. */
  lemma {:induction false} RemoveSpacesConcat(a: string, b: string)
    ensures RemoveSpaces(a + b) == RemoveSpaces(a) + RemoveSpaces(b)
  {
    if a != [] {
      assert (a + b)[0] == a[0];
      assert (a + b)[1..] == a[1..] + b;
      RemoveSpacesConcat(a[1..], b);
    } else {
      assert a + b == b;
    }
  }

  /**
   * Normalising twice gives the same number exactly when the space-free
   * input has at least nine characters; a shorter one grows by "254" again.
   */
  lemma NormalizeIdempotentIff(raw: string)
    ensures Normalize(Normalize(raw)) == Normalize(raw) <==> |RemoveSpaces(raw)| >= 9
  {
    var n := Normalize(raw);
    NormalizeIsPrefixedLastNine(raw);
    RemoveSpacesIdentity(n);
    NormalizeIsPrefixedLastNine(n);
    if |RemoveSpaces(raw)| >= 9 {
      assert |n| == 12;
      assert n[|n| - 9..] == LastNine(RemoveSpaces(raw));
    } else {
      assert |Normalize(n)| != |n|;
    }
  }

  /** An already-normalised number ("254" and nine characters, no spaces) is left as it is. */
  lemma NormalizedIsFixedPoint(digits: string)
    requires |digits| == 9 && ' ' !in digits
    ensures Normalize(CountryCode + digits) == CountryCode + digits
  {
    var s := CountryCode + digits;
    assert ' ' !in s;
    RemoveSpacesIdentity(s);
    NormalizeIsPrefixedLastNine(s);
    assert s[|s| - 9..] == digits;
  }

  /** A number written in three space-separated groups loses exactly the two separators. */
  lemma RemoveGroupSpaces(a: string, b: string, c: string)
    requires ' ' !in a && ' ' !in b && ' ' !in c
    ensures RemoveSpaces(a + " " + b + " " + c) == a + b + c
  {
    var sp := " ";
    assert RemoveSpaces(sp) == [] by {
      assert sp[1..] == [];
    }
    RemoveSpacesIdentity(a);
    RemoveSpacesIdentity(b);
    RemoveSpacesIdentity(c);
    var s1 := a + sp;
    RemoveSpacesConcat(a, sp);
    assert RemoveSpaces(s1) == a;
    var s2 := s1 + b;
    RemoveSpacesConcat(s1, b);
    assert RemoveSpaces(s2) == a + b;
    var s3 := s2 + sp;
    RemoveSpacesConcat(s2, sp);
    assert RemoveSpaces(s3) == a + b;
    RemoveSpacesConcat(s3, c);
    assert RemoveSpaces(s3 + c) == a + b + c;
  }

  /** Stripping the spaces of the worked local number. */
  lemma StripWorkedNumber()
    ensures RemoveSpaces("0712 345 678") == "0712345678"
  {
    RemoveGroupSpaces("0712", "345", "678");
    assert "0712" + " " + "345" + " " + "678" == "0712 345 678";
    assert "0712" + "345" + "678" == "0712345678";
  }

  /** The two worked numbers: a local number with spaces, and one already normalised. */
  lemma NormalizeExamples()
    ensures Normalize("0712 345 678") == "254712345678"
    ensures Normalize("254712345678") == "254712345678"
  {
    StripWorkedNumber();
    NormalizeIsPrefixedLastNine("0712 345 678");
    assert LastNine("0712345678") == "712345678";
    NormalizedIsFixedPoint("712345678");
    assert CountryCode + "712345678" == "254712345678";
  }
}
