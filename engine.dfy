/** JavaScript's truthiness test on a string-valued record lookup. */
module Lookup {

  /** `m[k]` is truthy: the key is present and its string value is not empty. */
  predicate Present<K>(m: map<K, string>, k: K)
  {
    k in m && m[k] != ""
  }
}

/**
 The character-by-character engine of the transliterator: a table from one
 character to a replacement string, applied to every character of a text.
 */
module Engine {
  import opened Lookup

  /** What the engine emits for one character: the table's replacement when the
      lookup is truthy, the character itself otherwise. */
  function Image(m: map<char, string>, c: char): (r: string)
    ensures |r| >= 1
  {
    if Present(m, c) then m[c] else [c]
  }

  /** The reference definition of the engine: the images of the characters of `s`,
      concatenated in input order. */
  function MapAll(m: map<char, string>, s: string): (r: string)
    ensures |r| >= |s|
  {
    if s == [] then [] else MapAll(m, s[..|s| - 1]) + Image(m, s[|s| - 1])
  }

  /** Walks the text one character at a time, growing the result. */
  method TransliterateWithMap(text: string, mapping: map<char, string>) returns (result: string)
    ensures result == MapAll(mapping, text)
  {
    result := "";
    for i := 0 to |text|
      invariant result == MapAll(mapping, text[..i])
    {
      var ch := text[i];
      if Present(mapping, ch) {
        result := result + mapping[ch];
      } else {
        result := result + [ch];
      }
      assert text[..i + 1][..i] == text[..i];
    }
    assert text[..|text|] == text;
  }

  /** A one-character text maps to that character's image. */
  lemma MapAllSingle(m: map<char, string>, c: char)
    ensures MapAll(m, [c]) == Image(m, c)
  {
    assert [c][..0] == [];
  }

  /** A three-character text maps to the three images in order. */
  lemma MapAllThree(m: map<char, string>, a: char, b: char, c: char)
    ensures MapAll(m, [a, b, c]) == Image(m, a) + Image(m, b) + Image(m, c)
  {
    assert [a, b, c][..2] == [a, b] && [a, b][..1] == [a];
    MapAllSingle(m, a);
  }

  /** The engine is a homomorphism: it distributes over concatenation. */
  lemma {:induction false} MapAllConcat(m: map<char, string>, a: string, b: string)
    ensures MapAll(m, a + b) == MapAll(m, a) + MapAll(m, b)
  {
    if b == [] {
      assert a + b == a;
    } else {
      var b' := b[..|b| - 1];
      assert (a + b)[..|a + b| - 1] == a + b';
      assert (a + b)[|a + b| - 1] == b[|b| - 1];
      MapAllConcat(m, a, b');
    }
  }

  /** The output is the output for the characters before position i, then the
      image of the character at i, then the output for the characters after it. */
  lemma MapAllSplit(m: map<char, string>, s: string, i: nat)
    requires i < |s|
    ensures MapAll(m, s) == MapAll(m, s[..i]) + Image(m, s[i]) + MapAll(m, s[i + 1..])
  {
    assert s == s[..i] + [s[i]] + s[i + 1..];
    MapAllConcat(m, s[..i] + [s[i]], s[i + 1..]);
    MapAllConcat(m, s[..i], [s[i]]);
    MapAllSingle(m, s[i]);
  }

  /** The image of the character at position i occupies the output starting
      right after the output of the characters before it. */
  lemma ImageAt(m: map<char, string>, s: string, i: nat)
    requires i < |s|
    ensures var p := |MapAll(m, s[..i])|;
      p + |Image(m, s[i])| <= |MapAll(m, s)| &&
      MapAll(m, s)[p..p + |Image(m, s[i])|] == Image(m, s[i])
  {
    MapAllSplit(m, s, i);
  }

  /** A character whose lookup is not truthy appears unchanged at its position. */
  lemma UnmappedCharKept(m: map<char, string>, s: string, i: nat)
    requires i < |s| && !Present(m, s[i])
    ensures var p := |MapAll(m, s[..i])|;
      p < |MapAll(m, s)| && MapAll(m, s)[p] == s[i]
  {
    ImageAt(m, s, i);
    var p := |MapAll(m, s[..i])|;
    assert MapAll(m, s)[p..p + 1][0] == s[i];
  }

  /** A text none of whose characters is a key comes back unchanged. */
  lemma {:induction false} NoKeysUnchanged(m: map<char, string>, s: string)
    requires forall i :: 0 <= i < |s| ==> !Present(m, s[i])
    ensures MapAll(m, s) == s
  {
    if s != [] {
      NoKeysUnchanged(m, s[..|s| - 1]);
      assert s[..|s| - 1] + [s[|s| - 1]] == s;
    }
  }

  /** When every replacement is a single character the length is kept. */
  lemma {:induction false} SingleCharValuesKeepLength(m: map<char, string>, s: string)
    requires forall k :: k in m ==> |m[k]| == 1
    ensures |MapAll(m, s)| == |s|
  {
    if s != [] {
      SingleCharValuesKeepLength(m, s[..|s| - 1]);
    }
  }

  /** When every replacement but that of `wide` is a single character, each
      occurrence of `wide` adds its replacement's extra characters. */
  lemma {:induction false} OneWideKeyLength(m: map<char, string>, wide: char, s: string)
    requires wide in m && |m[wide]| >= 1
    requires forall k :: k in m && k != wide ==> |m[k]| == 1
    ensures |MapAll(m, s)| == |s| + (|m[wide]| - 1) * multiset(s)[wide]
  {
    if s != [] {
      var init, last := s[..|s| - 1], s[|s| - 1];
      var extra := |m[wide]| - 1;
      OneWideKeyLength(m, wide, init);
      assert s == init + [last];
      assert multiset(s) == multiset(init) + multiset{last};
      if last == wide {
        var n := multiset(init)[wide];
        assert multiset(s)[wide] == n + 1;
        Distribute(extra, n);
      } else {
        assert multiset(s)[wide] == multiset(init)[wide];
      }
    }
  }

  lemma Distribute(x: int, n: int)
    ensures x * (n + 1) == x * n + x
  {
  }

  /** `back` undoes `there`: every key of `there` becomes one character that
      `back` turns into the key again. */
  predicate Undoes(there: map<char, string>, back: map<char, string>)
  {
    forall k :: Present(there, k) ==>
      |there[k]| == 1 && Present(back, there[k][0]) && back[there[k][0]] == [k]
  }

  /** Mapping with `there` and then with `back` gives the text back when `back`
      undoes `there` and no character of the text is a key of `back` only. */
  lemma {:induction false} RoundTrip(there: map<char, string>, back: map<char, string>, s: string)
    requires Undoes(there, back)
    requires forall i :: 0 <= i < |s| ==> Present(there, s[i]) || !Present(back, s[i])
    ensures MapAll(back, MapAll(there, s)) == s
  {
    if s != [] {
      var init, last := s[..|s| - 1], s[|s| - 1];
      var d := if Present(there, last) then there[last][0] else last;
      assert Image(there, last) == [d] && Image(back, d) == [last];
      calc {
        MapAll(back, MapAll(there, s));
        MapAll(back, MapAll(there, init) + [d]);
        { MapAllConcat(back, MapAll(there, init), [d]); }
        MapAll(back, MapAll(there, init)) + MapAll(back, [d]);
        { RoundTrip(there, back, init); MapAllSingle(back, d); }
        init + [last];
        { assert init + [last] == s; }
        s;
      }
    }
  }
}
