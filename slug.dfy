/**
 * Product identifiers: `generate_id` in shop/product_manager.py turns a
 * display name into an ASCII slug. It lower-cases the name (Python
 * `str.lower`), folds the Vietnamese vowels with their tone marks and `đ`
 * onto their base letter, turns every other character outside `[a-z0-9]`
 * into `_`, collapses runs of `_` and strips `_` from both ends.
 */
module Slug {

  /** The seven `re.sub` classes of lower-case Vietnamese letters, with the letter each folds to. */
  const FoldA: set<char> := {'à', 'á', 'ạ', 'ả', 'ã', 'â', 'ầ', 'ấ', 'ậ', 'ẩ', 'ẫ', 'ă', 'ằ', 'ắ', 'ặ', 'ẳ', 'ẵ'}
  const FoldE: set<char> := {'è', 'é', 'ẹ', 'ẻ', 'ẽ', 'ê', 'ề', 'ế', 'ệ', 'ể', 'ễ'}
  const FoldI: set<char> := {'ì', 'í', 'ị', 'ỉ', 'ĩ'}
  const FoldO: set<char> := {'ò', 'ó', 'ọ', 'ỏ', 'õ', 'ô', 'ồ', 'ố', 'ộ', 'ổ', 'ỗ', 'ơ', 'ờ', 'ớ', 'ợ', 'ở', 'ỡ'}
  const FoldU: set<char> := {'ù', 'ú', 'ụ', 'ủ', 'ũ', 'ư', 'ừ', 'ứ', 'ự', 'ử', 'ữ'}
  const FoldY: set<char> := {'ỳ', 'ý', 'ỵ', 'ỷ', 'ỹ'}
  const FoldD: set<char> := {'đ'}

  /** The same letters in upper case; Python lower-cases each into the class of the same name above. */
  const UpperA: set<char> := {'À', 'Á', 'Ạ', 'Ả', 'Ã', 'Â', 'Ầ', 'Ấ', 'Ậ', 'Ẩ', 'Ẫ', 'Ă', 'Ằ', 'Ắ', 'Ặ', 'Ẳ', 'Ẵ'}
  const UpperE: set<char> := {'È', 'É', 'Ẹ', 'Ẻ', 'Ẽ', 'Ê', 'Ề', 'Ế', 'Ệ', 'Ể', 'Ễ'}
  const UpperI: set<char> := {'Ì', 'Í', 'Ị', 'Ỉ', 'Ĩ'}
  const UpperO: set<char> := {'Ò', 'Ó', 'Ọ', 'Ỏ', 'Õ', 'Ô', 'Ồ', 'Ố', 'Ộ', 'Ổ', 'Ỗ', 'Ơ', 'Ờ', 'Ớ', 'Ợ', 'Ở', 'Ỡ'}
  const UpperU: set<char> := {'Ù', 'Ú', 'Ụ', 'Ủ', 'Ũ', 'Ư', 'Ừ', 'Ứ', 'Ự', 'Ử', 'Ữ'}
  const UpperY: set<char> := {'Ỳ', 'Ý', 'Ỵ', 'Ỷ', 'Ỹ'}
  const UpperD: set<char> := {'Đ'}

  predicate IsSlugAlnum(c: char) { ('a' <= c <= 'z') || ('0' <= c <= '9') }

  predicate IsSlugChar(c: char) { IsSlugAlnum(c) || c == '_' }

  /**
   * What `re.sub(...)` does to one character of the lower-cased name: the
   * seven Vietnamese classes fold to their base letter, `[a-z0-9]` stays, and
   * everything else becomes `_`.
   */
  function FoldLower(c: char): (r: char)
    ensures IsSlugChar(r)
    ensures IsSlugChar(c) ==> r == c
  {
    if c in FoldA then 'a'
    else if c in FoldE then 'e'
    else if c in FoldI then 'i'
    else if c in FoldO then 'o'
    else if c in FoldU then 'u'
    else if c in FoldY then 'y'
    else if c in FoldD then 'd'
    else if IsSlugAlnum(c) then c
    else '_'
  }

  /**
   * The slug characters one character of the name contributes: `FoldLower`
   * applied to Python's lower-case form of it. Python lower-cases `A-Z`, the
   * upper-case Vietnamese letters above, KELVIN SIGN (to `k`) and LATIN
   * CAPITAL LETTER I WITH DOT ABOVE (to `i` followed by a combining dot, which
   * then becomes `_`); every other character's lower-case form lies outside
   * `[a-z0-9]` and outside the Vietnamese classes, so it yields `_`.
   */
  function SlugChars(c: char): (r: string)
    ensures 1 <= |r| <= 2
    ensures forall k :: 0 <= k < |r| ==> IsSlugChar(r[k])
    ensures IsSlugChar(c) ==> r == [c]
  {
    if 'A' <= c <= 'Z' then [(c as int + 32) as char]
    else if c in UpperA then "a"
    else if c in UpperE then "e"
    else if c in UpperI then "i"
    else if c in UpperO then "o"
    else if c in UpperU then "u"
    else if c in UpperY then "y"
    else if c in UpperD then "d"
    else if c == '\U{212A}' then "k"
    else if c == '\U{0130}' then "i_"
    else [FoldLower(c)]
  }

  /** The whole name after lower-casing and the eight substitutions. */
  function Mapped(name: string): (r: string)
    ensures AllSlugChars(r)
  {
    MapCharsSlug(SlugChars, name);
    MapChars(SlugChars, name)
  }

  /** `f` applied to every character of `s`, the pieces laid end to end in order. */
  function MapChars(f: char -> string, s: string): string
  {
    if |s| == 0 then "" else MapChars(f, s[..|s| - 1]) + f(s[|s| - 1])
  }

  /** A map whose every piece is made of slug characters yields slug characters. */
  lemma {:induction false} MapCharsSlug(f: char -> string, s: string)
    requires forall c :: AllSlugChars(f(c))
    ensures AllSlugChars(MapChars(f, s))
    decreases |s|
  {
    if |s| > 0 {
      var front := MapChars(f, s[..|s| - 1]);
      var piece := f(s[|s| - 1]);
      MapCharsSlug(f, s[..|s| - 1]);
      forall k | 0 <= k < |front + piece| ensures IsSlugChar((front + piece)[k]) {
        if k < |front| { assert (front + piece)[k] == front[k]; }
        else { assert (front + piece)[k] == piece[k - |front|]; }
      }
    }
  }

  /** A map that keeps every slug character leaves text made of them unchanged. */
  lemma {:induction false} MapCharsFixed(f: char -> string, s: string)
    requires forall c :: IsSlugChar(c) ==> f(c) == [c]
    requires AllSlugChars(s)
    ensures MapChars(f, s) == s
    decreases |s|
  {
    if |s| > 0 {
      var init := s[..|s| - 1];
      forall k | 0 <= k < |init| ensures IsSlugChar(init[k]) { assert init[k] == s[k]; }
      MapCharsFixed(f, init);
      assert f(s[|s| - 1]) == [s[|s| - 1]];
      assert s == init + [s[|s| - 1]];
    }
  }

  lemma MapCharsSnoc(f: char -> string, a: string, c: char)
    ensures MapChars(f, a + [c]) == MapChars(f, a) + f(c)
  {
    assert (a + [c])[..|a|] == a;
  }

  predicate AllSlugChars(s: string) { forall k :: 0 <= k < |s| ==> IsSlugChar(s[k]) }

  predicate NoDoubleUnderscore(s: string) {
    forall k :: 0 <= k < |s| - 1 ==> !(s[k] == '_' && s[k + 1] == '_')
  }

  predicate AllUnderscore(s: string) { forall k :: 0 <= k < |s| ==> s[k] == '_' }

  /** `re.sub(r'_+', '_', s)`: every run of underscores becomes one. */
  function Collapse(s: string): (r: string)
    ensures NoDoubleUnderscore(r)
    ensures |r| <= |s| && (r == [] <==> s == [])
    ensures |s| > 0 ==> r[0] == s[0] && r[|r| - 1] == s[|s| - 1]
    ensures forall k :: 0 <= k < |r| ==> r[k] in s
    ensures AllUnderscore(r) <==> AllUnderscore(s)
    decreases |s|
  {
    if |s| <= 1 then s
    else if s[0] == '_' && s[1] == '_' then
      var r := Collapse(s[1..]);
      assert AllUnderscore(s) <==> AllUnderscore(s[1..]) by {
        if AllUnderscore(s[1..]) {
          forall k | 0 <= k < |s| ensures s[k] == '_' { if k > 0 { assert s[k] == s[1..][k - 1]; } }
        }
      }
      r
    else
      var t := Collapse(s[1..]);
      var r := [s[0]] + t;
      assert r[0] == s[0] && r[1] == t[0] == s[1];
      assert !AllUnderscore(s) && !AllUnderscore(r) by { assert s[0] != '_' || s[1] != '_'; }
      r
  }

  /** Bounds of the text left once `_` is stripped from both ends. */
  function StripBounds(s: string): (b: (nat, nat))
    ensures b.0 <= b.1 <= |s|
    ensures forall k :: 0 <= k < b.0 ==> s[k] == '_'
    ensures forall k :: b.1 <= k < |s| ==> s[k] == '_'
    ensures b.0 < b.1 ==> s[b.0] != '_' && s[b.1 - 1] != '_'
    ensures b.0 == b.1 ==> b.0 == 0 || b.0 == |s|
  {
    var i := Leading(s, 0);
    if i == |s| then (i, i) else (i, Trailing(s, |s|))
  }

  function Leading(s: string, i: nat): (n: nat)
    requires i <= |s|
    ensures i <= n <= |s|
    ensures forall k :: i <= k < n ==> s[k] == '_'
    ensures n < |s| ==> s[n] != '_'
    decreases |s| - i
  {
    if i < |s| && s[i] == '_' then Leading(s, i + 1) else i
  }

  function Trailing(s: string, j: nat): (n: nat)
    requires j <= |s|
    ensures n <= j
    ensures forall k :: n <= k < j ==> s[k] == '_'
    ensures n > 0 ==> s[n - 1] != '_'
    decreases j
  {
    if j > 0 && s[j - 1] == '_' then Trailing(s, j - 1) else j
  }

  /** `s.strip('_')`. */
  function StripUnderscores(s: string): string
  {
    var b := StripBounds(s);
    s[b.0..b.1]
  }

  /** `generate_id(name)`. */
  function GenerateId(name: string): string
  {
    StripUnderscores(Collapse(Mapped(name)))
  }

  /** The shape every identifier has: `^[a-z0-9_]*$`, no `_` at either end, no `__`. */
  predicate IsSlug(s: string) {
    && AllSlugChars(s)
    && (|s| > 0 ==> s[0] != '_' && s[|s| - 1] != '_')
    && NoDoubleUnderscore(s)
  }

  /** Every generated identifier is a slug. */
  lemma GenerateIdIsSlug(name: string)
    ensures IsSlug(GenerateId(name))
  {
    CleanedIsSlug(Mapped(name));
  }

  /** Collapsing and stripping text made of slug characters leaves a slug. */
  lemma CleanedIsSlug(m: string)
    requires AllSlugChars(m)
    ensures IsSlug(StripUnderscores(Collapse(m)))
  {
    var c := Collapse(m);
    forall k | 0 <= k < |c| ensures IsSlugChar(c[k]) {
      SlugCharIn(m, c[k]);
    }
    StrippedIsSlug(c);
  }

  /** Stripping `_` from both ends of slug characters with no `__` leaves a slug. */
  lemma StrippedIsSlug(c: string)
    requires AllSlugChars(c) && NoDoubleUnderscore(c)
    ensures IsSlug(StripUnderscores(c))
  {
    var b := StripBounds(c);
    var r := c[b.0..b.1];
    assert StripUnderscores(c) == r;
    forall k | 0 <= k < |r| ensures IsSlugChar(r[k]) {
      assert r[k] == c[b.0 + k];
    }
    if |r| > 0 {
      assert r[0] == c[b.0] && r[|r| - 1] == c[b.1 - 1];
    }
    forall k | 0 <= k < |r| - 1 ensures !(r[k] == '_' && r[k + 1] == '_') {
      assert r[k] == c[b.0 + k] && r[k + 1] == c[b.0 + k + 1];
    }
  }

  lemma SlugCharIn(m: string, x: char)
    requires AllSlugChars(m) && x in m
    ensures IsSlugChar(x)
  {
    var j :| 0 <= j < |m| && m[j] == x;
  }

  /** A slug is a fixed point of every stage, so generating an id from an id changes nothing. */
  lemma MappedSlug(s: string)
    requires AllSlugChars(s)
    ensures Mapped(s) == s
  {
    MapCharsFixed(SlugChars, s);
  }

  lemma {:induction false} CollapseNoDouble(s: string)
    requires NoDoubleUnderscore(s)
    ensures Collapse(s) == s
    decreases |s|
  {
    if |s| > 1 {
      var t := s[1..];
      forall k | 0 <= k < |t| - 1 ensures !(t[k] == '_' && t[k + 1] == '_') {
        assert t[k] == s[k + 1] && t[k + 1] == s[k + 2];
      }
      CollapseNoDouble(t);
      assert !(s[0] == '_' && s[1] == '_');
      assert s == [s[0]] + t;
    }
  }

  lemma StripSlug(s: string)
    requires IsSlug(s)
    ensures StripUnderscores(s) == s
  {
    if |s| > 0 {
      assert Leading(s, 0) == 0;
      assert Trailing(s, |s|) == |s|;
    }
    assert s[0..|s|] == s;
  }

  lemma GenerateIdIdempotent(name: string)
    ensures GenerateId(GenerateId(name)) == GenerateId(name)
  {
    var id := GenerateId(name);
    GenerateIdIsSlug(name);
    MappedSlug(id);
    CollapseNoDouble(id);
    StripSlug(id);
  }

  /** The identifier is empty exactly when no character of the name maps to a letter or digit. */
  lemma GenerateIdEmpty(name: string)
    ensures GenerateId(name) == "" <==> AllUnderscore(Mapped(name))
  {
    var m := Mapped(name);
    var c := Collapse(m);
    var b := StripBounds(c);
    if AllUnderscore(m) {
      assert AllUnderscore(c);
      if |c| > 0 { assert c[0] == '_'; }
      assert b.0 == b.1;
    } else {
      assert !AllUnderscore(c);
      var k :| 0 <= k < |c| && c[k] != '_';
      assert b.0 <= k < b.1;
    }
  }

  /** The name "Cốc sứ" (a porcelain mug) gets the identifier `coc_su`. */
  lemma GenerateIdExample(name: string)
    requires name == "Cốc sứ"
    ensures GenerateId(name) == "coc_su"
  {
    MappedExample(name);
    var m := Mapped(name);
    assert NoDoubleUnderscore(m);
    CollapseNoDouble(m);
    StripSlug(m);
  }

  lemma MappedExample(name: string)
    requires name == "Cốc sứ"
    ensures Mapped(name) == "coc_su"
  {
    assert Mapped(name[..3]) == "coc" by { MappedExampleHead(name[..3]); }
    assert Mapped(name[..4]) == "coc_" by {
      SpaceSlugChars();
      MappedSnoc(name[..3], ' ');
      assert name[..3] + [' '] == name[..4];
    }
    assert Mapped(name[..5]) == "coc_s" by {
      MappedSnoc(name[..4], 's');
      assert name[..4] + ['s'] == name[..5];
    }
    ToneU();
    MappedSnoc(name[..5], 'ứ');
    assert name[..5] + ['ứ'] == name;
  }

  lemma MappedExampleHead(head: string)
    requires head == "Cốc"
    ensures Mapped(head) == "coc"
  {
    assert Mapped(head[..1]) == "c" by {
      MappedSnoc([], 'C');
      assert [] + ['C'] == head[..1];
      assert SlugChars('C') == "c";
    }
    assert Mapped(head[..2]) == "co" by {
      ToneO();
      MappedSnoc(head[..1], 'ố');
      assert head[..1] + ['ố'] == head[..2];
    }
    MappedSnoc(head[..2], 'c');
    assert head[..2] + ['c'] == head;
  }

  lemma MappedSnoc(a: string, c: char)
    ensures Mapped(a + [c]) == Mapped(a) + SlugChars(c)
  {
    MapCharsSnoc(SlugChars, a, c);
  }

  lemma SpaceSlugChars()
    ensures SlugChars(' ') == "_"
  {
    assert ' ' !in UpperA && ' ' !in UpperE && ' ' !in UpperI && ' ' !in UpperO;
    assert ' ' !in UpperU && ' ' !in UpperY && ' ' !in UpperD;
    assert ' ' !in FoldA && ' ' !in FoldE && ' ' !in FoldI && ' ' !in FoldO;
    assert ' ' !in FoldU && ' ' !in FoldY && ' ' !in FoldD;
  }

  lemma ToneO()
    ensures SlugChars('ố') == "o"
  {
    assert 'ố' !in UpperA && 'ố' !in UpperE && 'ố' !in UpperI && 'ố' !in UpperO;
    assert 'ố' !in UpperU && 'ố' !in UpperY && 'ố' !in UpperD;
    assert 'ố' !in FoldA && 'ố' !in FoldE && 'ố' !in FoldI;
    assert 'ố' in FoldO;
  }

  lemma ToneU()
    ensures SlugChars('ứ') == "u"
  {
    assert 'ứ' !in UpperA && 'ứ' !in UpperE && 'ứ' !in UpperI && 'ứ' !in UpperO;
    assert 'ứ' !in UpperU && 'ứ' !in UpperY && 'ứ' !in UpperD;
    assert 'ứ' !in FoldA && 'ứ' !in FoldE && 'ứ' !in FoldI && 'ứ' !in FoldO;
    assert 'ứ' in FoldU;
  }
}
