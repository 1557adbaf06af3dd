/** ASCII text: the letter-case and separator operations the protocol keys depend on. */
module Text {
  function UpperChar(c: char): char {
    if 'a' <= c <= 'z' then c - 'a' + 'A' else c
  }

  function LowerChar(c: char): char {
    if 'A' <= c <= 'Z' then c - 'A' + 'a' else c
  }

  function ToUpper(s: string): string {
    seq(|s|, i requires 0 <= i < |s| => UpperChar(s[i]))
  }

  function ToLower(s: string): string {
    seq(|s|, i requires 0 <= i < |s| => LowerChar(s[i]))
  }

  predicate EqualFold(a: string, b: string) {
    ToUpper(a) == ToUpper(b)
  }

  /** strings.ReplaceAll(s, "-", "") */
  function RemoveDashes(s: string): string {
    if s == "" then ""
    else if s[0] == '-' then RemoveDashes(s[1..])
    else [s[0]] + RemoveDashes(s[1..])
  }

  lemma {:induction false} RemoveDashesKeepsTheRest(s: string)
    ensures '-' !in RemoveDashes(s)
    ensures multiset(RemoveDashes(s)) == multiset(s)['-' := 0]
  {
    if s != "" {
      RemoveDashesKeepsTheRest(s[1..]);
      assert s == [s[0]] + s[1..];
    }
  }

  lemma {:induction false} RemoveDashesAppends(s: string, t: string)
    ensures RemoveDashes(s + t) == RemoveDashes(s) + RemoveDashes(t)
    decreases |s|
  {
    if s == "" {
      assert s + t == t;
    } else {
      RemoveDashesAppends(s[1..], t);
      assert (s + t)[0] == s[0] && (s + t)[1..] == s[1..] + t;
    }
  }

  lemma RemoveDashesFirst(c: char, rest: string)
    ensures RemoveDashes([c] + rest) == (if c == '-' then "" else [c]) + RemoveDashes(rest)
  {
    var s := [c] + rest;
    assert s[1..] == rest;
  }

  /** The characters that stay keep their order: cut at any character, the text loses it exactly when it is a dash. */
  lemma RemoveDashesCuts(before: string, c: char, after: string)
    ensures RemoveDashes(before + ([c] + after)) ==
              RemoveDashes(before) + ((if c == '-' then "" else [c]) + RemoveDashes(after))
    ensures RemoveDashes("") == ""
  {
    RemoveDashesAppends(before, [c] + after);
    RemoveDashesFirst(c, after);
  }

  lemma UpperFixesCapitals(s: string)
    requires forall i :: 0 <= i < |s| ==> !('a' <= s[i] <= 'z')
    ensures ToUpper(s) == s
  {
    assert forall i :: 0 <= i < |s| ==> ToUpper(s)[i] == s[i];
  }

  /** One letter, whatever its case; the capitals stand 32 places before the small letters. */
  predicate SameLetter(c: char, d: char) {
    || c == d
    || (c in "ABCDEFGHIJKLMNOPQRSTUVWXYZ" && d as int == c as int + 32)
    || (d in "ABCDEFGHIJKLMNOPQRSTUVWXYZ" && c as int == d as int + 32)
  }

  lemma Alphabet(c: char)
    ensures c in "ABCDEFGHIJKLMNOPQRSTUVWXYZ" <==> 65 <= c as int <= 90
  {
    var letters := "ABCDEFGHIJKLMNOPQRSTUVWXYZ";
    assert forall i :: 0 <= i < 26 ==> letters[i] as int == 65 + i;
    if 65 <= c as int <= 90 {
      assert letters[c as int - 65] == c;
    }
  }

  lemma UpperTells(c: char, d: char)
    ensures UpperChar(c) == UpperChar(d) <==> SameLetter(c, d)
    ensures SameLetter(c, UpperChar(c)) && SameLetter(c, LowerChar(c))
    ensures !(97 <= UpperChar(c) as int <= 122) && !(65 <= LowerChar(c) as int <= 90)
  {
    Alphabet(c);
    Alphabet(d);
    Alphabet(UpperChar(c));
    Alphabet(LowerChar(c));
  }

  /** Texts fold together exactly when they differ in the case of letters only. */
  lemma FoldsExactly(a: string, b: string)
    ensures EqualFold(a, b) <==> |a| == |b| && forall i :: 0 <= i < |a| ==> SameLetter(a[i], b[i])
  {
    if EqualFold(a, b) {
      assert |a| == |ToUpper(a)| == |ToUpper(b)| == |b|;
      forall i | 0 <= i < |a| ensures SameLetter(a[i], b[i]) {
        assert ToUpper(a)[i] == ToUpper(b)[i];
        UpperTells(a[i], b[i]);
      }
    }
    if |a| == |b| && forall i :: 0 <= i < |a| ==> SameLetter(a[i], b[i]) {
      forall i | 0 <= i < |a| ensures ToUpper(a)[i] == ToUpper(b)[i] {
        UpperTells(a[i], b[i]);
      }
    }
  }

  /** Upper-casing leaves no small letter and lower-casing no capital, and nothing else changes. */
  lemma CasesChanged(s: string)
    ensures EqualFold(s, ToUpper(s)) && EqualFold(s, ToLower(s))
    ensures forall i :: 0 <= i < |s| ==> !(97 <= ToUpper(s)[i] as int <= 122) && !(65 <= ToLower(s)[i] as int <= 90)
  {
    forall i | 0 <= i < |s|
      ensures SameLetter(s[i], ToUpper(s)[i]) && SameLetter(s[i], ToLower(s)[i])
      ensures !(97 <= ToUpper(s)[i] as int <= 122) && !(65 <= ToLower(s)[i] as int <= 90)
    {
      UpperTells(s[i], s[i]);
    }
    FoldsExactly(s, ToUpper(s));
    FoldsExactly(s, ToLower(s));
  }

  /** Folding to lower case and folding to upper case identify the same strings. */
  lemma FoldsAgree(a: string, b: string)
    ensures ToLower(a) == ToLower(b) <==> ToUpper(a) == ToUpper(b)
  {
    if ToLower(a) == ToLower(b) {
      forall i | 0 <= i < |ToUpper(a)| ensures |ToUpper(b)| == |ToUpper(a)| && ToUpper(a)[i] == ToUpper(b)[i] {
        assert |ToLower(a)| == |ToLower(b)|;
        assert ToLower(a)[i] == ToLower(b)[i];
      }
    }
    if ToUpper(a) == ToUpper(b) {
      forall i | 0 <= i < |ToLower(a)| ensures |ToLower(b)| == |ToLower(a)| && ToLower(a)[i] == ToLower(b)[i] {
        assert |ToUpper(a)| == |ToUpper(b)|;
        assert ToUpper(a)[i] == ToUpper(b)[i];
      }
    }
  }
}
