/** The slug of an EVE type: its name with every run of other characters squeezed to a hyphen, then the type id. */
module EveSlug {
  import opened GoStrings

  /** unicode.IsLetter or unicode.IsDigit; the hyphen is neither, the decimal digits are. */
  ghost predicate Alphanumeric(alnum: char -> bool) {
    !alnum('-') && forall c | IsDigit(c) :: alnum(c)
  }

  predicate IsHyphen(c: char) {
    c == '-'
  }

  predicate EndsHyphen(s: string) {
    s != "" && s[|s| - 1] == '-'
  }

  /** Letters and digits stay, each run of anything else becomes one hyphen. */
  function Squeeze(s: string, alnum: char -> bool): string {
    if s == "" then ""
    else
      var (front, c) := (Squeeze(s[..|s| - 1], alnum), s[|s| - 1]);
      if alnum(c) then front + [c] else if EndsHyphen(front) then front else front + "-"
  }

  /** The part before the last hyphen that is not the id's. */
  function Stem(lowered: string, alnum: char -> bool): string {
    var slug := Trim(Squeeze(lowered, alnum), IsHyphen);
    if slug == "" then "type" else slug
  }

  function SlugOf(lowered: string, typeId: int, alnum: char -> bool): string {
    Stem(lowered, alnum) + "-" + Itoa(typeId)
  }

  /** `lowered` is the trimmed name in lower case. */
  method BuildEVESlug(lowered: string, typeId: int, alnum: char -> bool) returns (slug: string)
    requires Alphanumeric(alnum)
    ensures slug == SlugOf(lowered, typeId, alnum)
  {
    hide Trim, Itoa;
    var b, lastHyphen := "", false;
    for i := 0 to |lowered|
      invariant b == Squeeze(lowered[..i], alnum)
      invariant lastHyphen == EndsHyphen(b)
    {
      assert lowered[..i + 1][..i] == lowered[..i];
      var r := lowered[i];
      if alnum(r) {
        b := b + [r];
        lastHyphen := false;
      } else if !lastHyphen {
        b := b + "-";
        lastHyphen := true;
      }
    }
    assert lowered[..|lowered|] == lowered;
    var trimmed := Trim(b, IsHyphen);
    if trimmed == "" {
      return "type" + "-" + Itoa(typeId);
    }
    return trimmed + "-" + Itoa(typeId);
  }

  // ----- hyphens -----

  predicate NoDoubleHyphen(s: string) {
    forall i | 0 < i < |s| :: !(s[i - 1] == '-' && s[i] == '-')
  }

  lemma {:induction false} SqueezedHasNoDouble(s: string, alnum: char -> bool)
    requires Alphanumeric(alnum)
    ensures NoDoubleHyphen(Squeeze(s, alnum))
  {
    if s != "" {
      SqueezedHasNoDouble(s[..|s| - 1], alnum);
    }
  }

  lemma TrimmedStem(s: string)
    requires NoDoubleHyphen(s)
    ensures var t := Trim(s, IsHyphen); NoDoubleHyphen(t) && !EndsHyphen(t) && (t != "" ==> t[0] != '-')
  {
    var l := TrimLeft(s, IsHyphen);
    var k :| 0 <= k <= |s| && l == s[k..];
    forall i | 0 < i < |l|
      ensures !(l[i - 1] == '-' && l[i] == '-')
    {
      assert l[i] == s[k + i] && l[i - 1] == s[k + i - 1];
    }
    var t := TrimRight(l, IsHyphen);
    assert forall i | 0 <= i < |t| :: t[i] == l[i];
  }

  /** Nonempty, single hyphens only, none at either end. */
  lemma StemShape(lowered: string, alnum: char -> bool)
    requires Alphanumeric(alnum)
    ensures var stem := Stem(lowered, alnum); stem != "" && stem[0] != '-' && !EndsHyphen(stem) && NoDoubleHyphen(stem)
  {
    SqueezedHasNoDouble(lowered, alnum);
    TrimmedStem(Squeeze(lowered, alnum));
  }

  /** No slug starts with a hyphen, and a slug has two adjacent hyphens exactly when its type id is negative. */
  lemma SlugShape(lowered: string, typeId: int, alnum: char -> bool)
    requires Alphanumeric(alnum)
    ensures var slug := SlugOf(lowered, typeId, alnum);
      slug != "" && slug[0] != '-' && (NoDoubleHyphen(slug) <==> typeId >= 0)
  {
    hide Trim, Squeeze;
    var (stem, id) := (Stem(lowered, alnum), Itoa(typeId));
    StemShape(lowered, alnum);
    var slug := stem + "-" + id;
    assert slug == SlugOf(lowered, typeId, alnum);
    assert slug[0] == stem[0];
    if typeId < 0 {
      assert slug[|stem|] == '-' && slug[|stem| + 1] == '-';
    } else {
      assert forall i | |stem| < i < |slug| :: slug[i] == id[i - |stem| - 1] && IsDigit(id[i - |stem| - 1]);
      assert forall i | 0 <= i < |stem| :: slug[i] == stem[i];
      assert stem[|stem| - 1] != '-';
    }
  }

  // ----- what survives of the name -----

  /** The words of a text: its maximal runs of letters and digits, in order. */
  function Words(s: string, alnum: char -> bool): (words: seq<string>)
    ensures s != "" && alnum(s[|s| - 1]) ==> words != []
  {
    if s == "" then []
    else
      var (front, c) := (s[..|s| - 1], s[|s| - 1]);
      var words := Words(front, alnum);
      if !alnum(c) then words
      else if front != "" && alnum(front[|front| - 1]) then words[..|words| - 1] + [words[|words| - 1] + [c]]
      else words + [[c]]
  }

  lemma WordsNext(s: string, c: char, alnum: char -> bool)
    ensures Words(s + [c], alnum)
         == var words := Words(s, alnum);
            if !alnum(c) then words
            else if s != "" && alnum(s[|s| - 1]) then words[..|words| - 1] + [words[|words| - 1] + [c]]
            else words + [[c]]
  {
    assert (s + [c])[..|s|] == s;
  }

  lemma {:induction false} SqueezeKeepsWords(s: string, alnum: char -> bool)
    requires Alphanumeric(alnum)
    ensures Words(Squeeze(s, alnum), alnum) == Words(s, alnum)
    ensures s != "" ==> Squeeze(s, alnum) != ""
    ensures s != "" ==> alnum(Squeeze(s, alnum)[|Squeeze(s, alnum)| - 1]) == alnum(s[|s| - 1])
  {
    if s != "" {
      var (front, c) := (s[..|s| - 1], s[|s| - 1]);
      SqueezeKeepsWords(front, alnum);
      var squeezed := Squeeze(front, alnum);
      WordsNext(squeezed, c, alnum);
      WordsNext(squeezed, '-', alnum);
      hide Words;
      assert s == front + [c];
      WordsNext(front, c, alnum);
    }
  }

  lemma {:induction false} LeadingHyphen(s: string, alnum: char -> bool)
    requires Alphanumeric(alnum)
    ensures Words("-" + s, alnum) == Words(s, alnum)
  {
    if s == "" {
      WordsNext("", '-', alnum);
      assert "-" + s == "" + ['-'];
    } else {
      var (front, c) := (s[..|s| - 1], s[|s| - 1]);
      LeadingHyphen(front, alnum);
      WordsNext("-" + front, c, alnum);
      WordsNext(front, c, alnum);
      hide Words;
      assert "-" + s == ("-" + front) + [c] && s == front + [c];
    }
  }

  lemma {:induction false} TrimLeftKeepsWords(s: string, alnum: char -> bool)
    requires Alphanumeric(alnum)
    ensures Words(TrimLeft(s, IsHyphen), alnum) == Words(s, alnum)
  {
    if s != "" && s[0] == '-' {
      LeadingHyphen(s[1..], alnum);
      TrimLeftKeepsWords(s[1..], alnum);
      assert s == "-" + s[1..];
    }
  }

  lemma {:induction false} TrimRightKeepsWords(s: string, alnum: char -> bool)
    requires Alphanumeric(alnum)
    ensures Words(TrimRight(s, IsHyphen), alnum) == Words(s, alnum)
  {
    if s != "" && s[|s| - 1] == '-' {
      TrimRightKeepsWords(s[..|s| - 1], alnum);
    }
  }

  predicate OnlyWords(s: string, alnum: char -> bool) {
    forall c | c in s :: alnum(c) || c == '-'
  }

  lemma {:induction false} SqueezedOnlyWords(s: string, alnum: char -> bool)
    ensures OnlyWords(Squeeze(s, alnum), alnum)
  {
    if s != "" {
      SqueezedOnlyWords(s[..|s| - 1], alnum);
    }
  }

  lemma {:induction false} NoWords(s: string, alnum: char -> bool)
    requires OnlyWords(s, alnum) && (s != "" ==> s[0] != '-')
    ensures s != "" ==> Words(s, alnum) != []
  {
    if |s| > 1 {
      assert s[..|s| - 1][0] == s[0] && forall c | c in s[..|s| - 1] :: c in s;
      NoWords(s[..|s| - 1], alnum);
    } else if |s| == 1 {
      assert s[0] in s;
    }
  }

  /** The slug's stem holds the words of the name, in order, with one hyphen between any two and nothing else; it is
      "type" for a name without words. */
  lemma StemKeepsWords(lowered: string, alnum: char -> bool)
    requires Alphanumeric(alnum)
    ensures OnlyWords(Trim(Squeeze(lowered, alnum), IsHyphen), alnum)
    ensures if Words(lowered, alnum) == [] then Stem(lowered, alnum) == "type"
            else Words(Stem(lowered, alnum), alnum) == Words(lowered, alnum) && OnlyWords(Stem(lowered, alnum), alnum)
  {
    hide Words, Squeeze, Trim, OnlyWords;
    var squeezed := Squeeze(lowered, alnum);
    SqueezeKeepsWords(lowered, alnum);
    SqueezedOnlyWords(lowered, alnum);
    TrimKeepsWords(squeezed, alnum);
    NoWords(Trim(squeezed, IsHyphen), alnum);
    EmptyHasNoWords(alnum);
  }

  lemma TrimKeepsWords(s: string, alnum: char -> bool)
    requires Alphanumeric(alnum) && OnlyWords(s, alnum)
    ensures var t := Trim(s, IsHyphen);
      Words(t, alnum) == Words(s, alnum) && OnlyWords(t, alnum) && (t != "" ==> t[0] != '-')
  {
    TrimLeftKeepsWords(s, alnum);
    TrimRightKeepsWords(TrimLeft(s, IsHyphen), alnum);
    var a, b := TrimCuts(s, IsHyphen);
    var t := Trim(s, IsHyphen);
    assert Words(t, alnum) == Words(s, alnum);
    hide Words, Trim;
    forall c | c in t
      ensures c in s
    {
      var i :| 0 <= i < |t| && t[i] == c;
      assert s[a + i] == c;
    }
    assert t != "" ==> t[0] == s[a];
  }

  lemma EmptyHasNoWords(alnum: char -> bool)
    ensures Words("", alnum) == []
  {
  }

  // ----- injectivity -----

  lemma DecimalInjective(a: nat, b: nat)
    requires Decimal(a) == Decimal(b)
    ensures a == b
  {
    DecimalReadsBack(a);
    DecimalReadsBack(b);
  }

  /** Where the trailing digits of a string begin is determined by the string. */
  lemma DigitsAfterHyphen(a: string, x: string, b: string, y: string)
    requires AllDigits(x) && AllDigits(y) && a + "-" + x == b + "-" + y
    ensures a == b && x == y
  {
    var s := a + "-" + x;
    assert s == b + "-" + y;
    assert s[|a|] == '-' && s[|b|] == '-';
    assert forall i | |a| < i < |s| :: s[i] == x[i - |a| - 1] && s[i] != '-';
    assert forall i | |b| < i < |s| :: s[i] == y[i - |b| - 1] && s[i] != '-';
    assert |a| == |b|;
    assert a == s[..|a|] && b == s[..|b|];
    assert x == s[|a| + 1..] && y == s[|b| + 1..];
  }

  /** The string up to the sign: a stem, with one more hyphen for a negative id. */
  function Lead(stem: string, typeId: int): string {
    if typeId < 0 then stem + "-" else stem
  }

  function Magnitude(typeId: int): nat {
    if typeId < 0 then -typeId else typeId
  }

  /** Different type ids give different slugs, whatever the names. */
  lemma SlugsDiffer(lowered: string, typeId: int, lowered': string, typeId': int, alnum: char -> bool)
    requires Alphanumeric(alnum) && typeId != typeId'
    ensures SlugOf(lowered, typeId, alnum) != SlugOf(lowered', typeId', alnum)
  {
    hide Trim, Squeeze, Decimal;
    var (stem, stem') := (Stem(lowered, alnum), Stem(lowered', alnum));
    StemShape(lowered, alnum);
    StemShape(lowered', alnum);
    var (x, y) := (Decimal(Magnitude(typeId)), Decimal(Magnitude(typeId')));
    assert SlugOf(lowered, typeId, alnum) == Lead(stem, typeId) + "-" + x;
    assert SlugOf(lowered', typeId', alnum) == Lead(stem', typeId') + "-" + y;
    assert EndsHyphen(Lead(stem, typeId)) <==> typeId < 0;
    assert EndsHyphen(Lead(stem', typeId')) <==> typeId' < 0;
    if Lead(stem, typeId) + "-" + x == Lead(stem', typeId') + "-" + y {
      DigitsAfterHyphen(Lead(stem, typeId), x, Lead(stem', typeId'), y);
      DecimalInjective(Magnitude(typeId), Magnitude(typeId'));
    }
  }
}
