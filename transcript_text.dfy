/** Text helpers the transcript headers share: `str.replace` of one character and
    `str.title()`, both on ASCII text. */
module TranscriptText {
  import opened Common

  predicate IsLetter(c: char) {
    'a' <= c <= 'z' || 'A' <= c <= 'Z'
  }

  function UpperChar(c: char): char {
    if 'a' <= c <= 'z' then (c as int - 32) as char else c
  }

  /** `s.replace(a, b)` for single characters. */
  function ReplaceChar(s: string, a: char, b: char): (r: string)
    ensures |r| == |s|
    ensures forall i :: 0 <= i < |s| ==> r[i] == (if s[i] == a then b else s[i])
  {
    seq(|s|, i requires 0 <= i < |s| => if s[i] == a then b else s[i])
  }

  /** The case a title-cased letter takes: lower inside a word, upper at its start. */
  function CaseAt(c: char, afterLetter: bool): char {
    if !IsLetter(c) then c else if afterLetter then LowerChar(c) else UpperChar(c)
  }

  /** `str.title()` from a position whose previous character was (`afterLetter`) or was
      not a letter. */
  function TitleFrom(s: string, afterLetter: bool): (r: string)
    ensures |r| == |s|
    decreases |s|
  {
    if s == [] then [] else [CaseAt(s[0], afterLetter)] + TitleFrom(s[1..], IsLetter(s[0]))
  }

  /** `s.title()`. */
  function Title(s: string): (r: string)
    ensures |r| == |s|
  {
    TitleFrom(s, false)
  }

  /** Title case works character by character: a letter starting a word (the first
      character, or one after a non-letter) becomes upper case, any other letter lower case,
      and every other character is kept. */
  lemma TitleChars(s: string)
    ensures forall i :: 0 <= i < |s| ==> Title(s)[i] == CaseAt(s[i], i > 0 && IsLetter(s[i - 1]))
  {
    TitleFromChars(s, false);
    assert Title(s) == TitleFrom(s, false);
    forall i | 0 <= i < |s| ensures Title(s)[i] == CaseAt(s[i], i > 0 && IsLetter(s[i - 1])) {
      assert TitleFrom(s, false)[i] == CaseAt(s[i], if i == 0 then false else IsLetter(s[i - 1]));
    }
  }

  lemma {:induction false} TitleFromChars(s: string, afterLetter: bool)
    ensures forall i :: 0 <= i < |s| ==>
              TitleFrom(s, afterLetter)[i] == CaseAt(s[i], if i == 0 then afterLetter else IsLetter(s[i - 1]))
    decreases |s|
  {
    if s != [] {
      TitleFromChars(s[1..], IsLetter(s[0]));
      var r := TitleFrom(s, afterLetter);
      forall i | 1 <= i < |s| ensures r[i] == CaseAt(s[i], IsLetter(s[i - 1])) {
        assert r[i] == TitleFrom(s[1..], IsLetter(s[0]))[i - 1];
        assert s[1..][i - 1] == s[i];
        if i > 1 {
          assert s[1..][i - 2] == s[i - 1];
        }
      }
    }
  }

  /** Case mapping keeps letters letters and cases an already cased letter the same way. */
  lemma CaseAtTwice(c: char, b: bool)
    ensures IsLetter(CaseAt(c, b)) == IsLetter(c)
    ensures CaseAt(CaseAt(c, b), b) == CaseAt(c, b)
  {
  }

  /** Title-casing a title-cased text changes nothing. */
  lemma TitleIdempotent(s: string)
    ensures Title(Title(s)) == Title(s)
  {
    var t := Title(s);
    TitleChars(s);
    TitleChars(t);
    forall i | 0 <= i < |s| ensures IsLetter(t[i]) == IsLetter(s[i]) {
      CaseAtTwice(s[i], i > 0 && IsLetter(s[i - 1]));
    }
    forall i | 0 <= i < |s| ensures Title(t)[i] == t[i] {
      CaseAtTwice(s[i], i > 0 && IsLetter(s[i - 1]));
    }
  }
}
