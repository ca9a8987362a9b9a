/**
 * Names of the Objective-C classes the toolkit generates: a root name
 * followed by ten characters drawn from a table of digits and letters.
 *
 * The random engine is replaced by the sequence of numbers it draws. The
 * table is a character array whose size counts its terminating NUL, so the
 * distribution as written draws from 0 to 62 and draw 62 picks the NUL.
 */
module ClassNames {

  const Digits: string := "0123456789"
  const Upper: string := "ABCDEFGHIJKLMNOPQRSTUVWXYZ"
  const Lower: string := "abcdefghijklmnopqrstuvwxyz"

  /** The table proper: the three literals the source concatenates. */
  const Alphanum: string := Digits + Upper + Lower

  /** `sizeof(alphanum)`: the 62 characters and the terminating NUL. */
  const AlphanumSize: nat := |Alphanum| + 1

  /** Largest number the distribution draws as written: `alphanumSize - 1`. */
  const DrawMaxAsWritten: nat := AlphanumSize - 1

  /** Largest index of a digit or letter. */
  const DrawMax: nat := |Alphanum| - 1

  /** Length of the suffix the class constructor asks for. */
  const SuffixLength: nat := 10

  predicate IsAlphanumeric(c: char) {
    '0' <= c <= '9' || 'A' <= c <= 'Z' || 'a' <= c <= 'z'
  }

  /** Every entry of the table proper is a digit or a letter. */
  lemma AlphanumTable()
    ensures |Alphanum| == 62
    ensures forall k :: 0 <= k < |Alphanum| ==> IsAlphanumeric(Alphanum[k])
  {
    forall k | 0 <= k < |Alphanum| ensures IsAlphanumeric(Alphanum[k]) {
      if k < 10 {
        assert Alphanum[k] == Digits[k];
      } else if k < 36 {
        assert Alphanum[k] == Upper[k - 10];
      } else {
        assert Alphanum[k] == Lower[k - 36];
      }
    }
  }

  /** `alphanum[k]`, where index 62 is the terminating NUL. */
  function AlphanumAt(k: nat): (c: char)
    requires k < AlphanumSize
    ensures k < |Alphanum| ==> IsAlphanumeric(c)
    ensures k == |Alphanum| ==> c == '\0'
  {
    AlphanumTable();
    if k < |Alphanum| then Alphanum[k] else '\0'
  }

  predicate DrawsWithin(draws: seq<nat>, max: nat) {
    forall i :: 0 <= i < |draws| ==> draws[i] <= max
  }

  /** The string the generator builds from the given draws, one character per draw. */
  function Generated(draws: seq<nat>): (s: string)
    requires DrawsWithin(draws, DrawMaxAsWritten)
  {
    seq(|draws|, i requires 0 <= i < |draws| => AlphanumAt(draws[i]))
  }

  /**
   * `generate_random_alphanum_string(length)`: a string of `length` NULs,
   * each overwritten with the table entry the next draw picks.
   */
  method GenerateRandomAlphanumString(length: nat, draws: seq<nat>) returns (s: string)
    requires |draws| >= length && DrawsWithin(draws, DrawMaxAsWritten)
    ensures s == Generated(draws[..length])
  {
    var str := new char[length](_ => '\0');
    var i := 0;
    while i < length
      invariant 0 <= i <= length
      invariant forall k :: 0 <= k < i ==> str[k] == AlphanumAt(draws[k])
    {
      str[i] := AlphanumAt(draws[i]);
      i := i + 1;
    }
    s := str[..];
  }

  /** As written, the distribution may draw 62, and the suffix then holds a NUL, which ends the C string. */
  lemma NulInSuffixAsWritten()
    ensures DrawMaxAsWritten == 62
    ensures DrawsWithin([62], DrawMaxAsWritten) && Generated([62]) == "\0"
  {
    assert |Alphanum| == 62;
  }

  /** Drawing from 0 to 61 instead, every character is a digit or a letter. */
  lemma {:induction false} GeneratedIsAlphanumeric(draws: seq<nat>)
    requires DrawsWithin(draws, DrawMax)
    ensures DrawMax == 61
    ensures var s := Generated(draws);
      |s| == |draws| && '\0' !in s && forall i :: 0 <= i < |s| ==> IsAlphanumeric(s[i])
  {
    assert |Alphanum| == 62;
    var s := Generated(draws);
    forall i | 0 <= i < |s| ensures IsAlphanumeric(s[i]) && s[i] != '\0' {
      assert s[i] == AlphanumAt(draws[i]);
    }
  }

  /**
   * The corrected class name: the root followed by the suffix generated from
   * draws within 0 to 61, so ten digits or letters.
   */
  function ClassName(root: string, draws: seq<nat>): (name: string)
    requires |draws| >= SuffixLength && DrawsWithin(draws[..SuffixLength], DrawMax)
    ensures |name| == |root| + SuffixLength && name[..|root|] == root
    ensures forall i :: |root| <= i < |name| ==> IsAlphanumeric(name[i])
  {
    assert |Alphanum| == 62;
    GeneratedIsAlphanumeric(draws[..SuffixLength]);
    root + Generated(draws[..SuffixLength])
  }

  /** What `c_str()` hands to a C function: the characters before the first NUL. */
  function CString(s: string): (c: string)
    ensures |c| <= |s| && c == s[..|c|] && '\0' !in c
    ensures |c| < |s| ==> s[|c|] == '\0'
    ensures '\0' !in s ==> c == s
  {
    if |s| == 0 || s[0] == '\0' then "" else [s[0]] + CString(s[1..])
  }

  /** A prefix without NUL passes through `c_str()` whole. */
  lemma {:induction false} CStringAppend(a: string, b: string)
    requires '\0' !in a
    ensures CString(a + b) == a + CString(b)
  {
    if |a| == 0 {
      assert a + b == b;
    } else {
      assert (a + b)[0] == a[0] != '\0';
      assert (a + b)[1..] == a[1..] + b;
      assert '\0' !in a[1..] by {
        forall k | 0 <= k < |a[1..]| ensures a[1..][k] != '\0' {
          assert a[1..][k] == a[k + 1];
        }
      }
      CStringAppend(a[1..], b);
      assert [a[0]] + a[1..] == a;
    }
  }

  /** The generated string holds a NUL exactly where a draw was 62. */
  lemma NulOnlyFromLastDraw(draws: seq<nat>)
    requires DrawsWithin(draws, DrawMaxAsWritten)
    ensures '\0' !in Generated(draws) <==> DrawsWithin(draws, DrawMax)
  {
    AlphanumTable();
    var g := Generated(draws);
    if DrawsWithin(draws, DrawMax) {
      forall i | 0 <= i < |g| ensures g[i] != '\0' {
        assert g[i] == Alphanum[draws[i]];
      }
    } else {
      var i :| 0 <= i < |draws| && draws[i] > DrawMax;
      assert g[i] == '\0';
    }
  }

  /**
   * The name `objc_class` passes to `objc_allocateClassPair` as written: the
   * root followed by the suffix, read as a C string. It is the full
   * root-plus-ten-characters name exactly when no draw hit the NUL;
   * otherwise it is cut short at the first NUL.
   */
  function ClassNameAsWritten(root: string, draws: seq<nat>): (name: string)
    requires |draws| >= SuffixLength && DrawsWithin(draws, DrawMaxAsWritten)
    ensures '\0' !in name
    ensures '\0' !in root ==> |root| <= |name| <= |root| + SuffixLength && name[..|root|] == root
    ensures '\0' !in root ==>
              (|name| == |root| + SuffixLength <==> DrawsWithin(draws[..SuffixLength], DrawMax))
    ensures '\0' !in root && DrawsWithin(draws[..SuffixLength], DrawMax) ==> name == ClassName(root, draws)
  {
    var suffix := Generated(draws[..SuffixLength]);
    NulOnlyFromLastDraw(draws[..SuffixLength]);
    if '\0' in root then CString(root + suffix)
    else
      CStringAppend(root, suffix);
      CString(root + suffix)
  }
}
