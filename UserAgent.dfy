/** The user-agent string and the normalisation of the caller's source tag
    (pinecone_sdk/src/utils/user_agent.rs). */
module UserAgent {
  import opened Wrappers
  import opened Text

  /** The fixed part of every user agent. */
  const BaseUserAgent: string := "lang=rust; pinecone-rust-client=0.1.0"

  /** The characters the tag filter keeps: `[a-z0-9_: ]`. */
  predicate AllowedChar(c: char) {
    IsAsciiLower(c) || IsAsciiDigit(c) || c == '_' || c == ':' || c == ' '
  }

  /** The characters a finished tag consists of: the allowed ones except the space. */
  predicate TagChar(c: char) {
    AllowedChar(c) && c != ' '
  }

  predicate AllAllowed(s: string) {
    forall i :: 0 <= i < |s| ==> AllowedChar(s[i])
  }

  predicate AllTagChars(s: string) {
    forall i :: 0 <= i < |s| ==> TagChar(s[i])
  }

  /** Removes every character outside `[a-z0-9_: ]` (the regex replacement by ""). */
  function KeepAllowed(s: string): (r: string)
    ensures AllAllowed(r)
    ensures |r| <= |s|
    ensures AllAllowed(s) ==> r == s
  {
    if s == [] then []
    else (if AllowedChar(s[0]) then [s[0]] else []) + KeepAllowed(s[1..])
  }

  /** Drops leading spaces. */
  function TrimStart(s: string): (r: string)
    ensures r == [] || r[0] != ' '
    decreases |s|
  {
    if s != [] && s[0] == ' ' then TrimStart(s[1..]) else s
  }

  /** Drops trailing spaces. */
  function TrimEnd(s: string): (r: string)
    ensures r == [] || r[|r| - 1] != ' '
    decreases |s|
  {
    if s != [] && s[|s| - 1] == ' ' then TrimEnd(s[..|s| - 1]) else s
  }

  /** `str::trim`. After the filter the only whitespace left is the space, so trimming
      spaces is trimming whitespace. */
  function Trim(s: string): string {
    TrimEnd(TrimStart(s))
  }

  /** `str::split(' ')`: the pieces between separators, with an empty piece wherever two
      separators meet or the text starts or ends with one. */
  function Split(s: string): (r: seq<string>)
    ensures |r| >= 1
    decreases |s|
  {
    if s == [] then [""]
    else
      var rest := Split(s[1..]);
      if s[0] == ' ' then [""] + rest
      else [[s[0]] + rest[0]] + rest[1..]
  }

  /** `filter(|s| !s.is_empty())` */
  function NonEmpty(parts: seq<string>): (r: seq<string>)
    ensures |r| <= |parts|
    ensures forall k :: 0 <= k < |r| ==> r[k] != ""
  {
    if parts == [] then []
    else (if parts[0] != "" then [parts[0]] else []) + NonEmpty(parts[1..])
  }

  /** `join(sep)` */
  function Join(parts: seq<string>, sep: string): string {
    if parts == [] then ""
    else if |parts| == 1 then parts[0]
    else parts[0] + sep + Join(parts[1..], sep)
  }

  /** The part of the normalisation after the filter: trim, split on spaces, drop the
      empty pieces and join the words with `_`. */
  function JoinWords(s: string): string {
    Join(NonEmpty(Split(Trim(s))), "_")
  }

  /** `build_source_tag`: lowercase, keep `[a-z0-9_: ]`, then join the words with `_`. */
  function BuildSourceTag(tag: string): string {
    JoinWords(KeepAllowed(AsciiLower(tag)))
  }

  /** `get_user_agent`: the base string, followed by the normalised tag when one is given. */
  method GetUserAgent(sourceTag: Option<string>) returns (userAgent: string)
    ensures sourceTag.None? ==> userAgent == BaseUserAgent
    ensures sourceTag.Some? ==> userAgent == BaseUserAgent + "; source_tag=" + BuildSourceTag(sourceTag.value)
    ensures userAgent == UserAgentFor(sourceTag)
  {
    userAgent := BaseUserAgent;
    if sourceTag.Some? {
      userAgent := userAgent + ("; source_tag=" + BuildSourceTag(sourceTag.value));
    }
  }

  /** The user agent a client stores, as a value (what `GetUserAgent` returns). */
  function UserAgentFor(sourceTag: Option<string>): string {
    match sourceTag
    case None => BaseUserAgent
    case Some(t) => BaseUserAgent + "; source_tag=" + BuildSourceTag(t)
  }

  // ---------------------------------------------------------------------------
  // Character set of the result.

  lemma {:induction false} TrimStartIsSuffix(s: string)
    ensures exists k :: 0 <= k <= |s| && TrimStart(s) == s[k..]
    decreases |s|
  {
    if s != [] && s[0] == ' ' {
      TrimStartIsSuffix(s[1..]);
      var k :| 0 <= k <= |s[1..]| && TrimStart(s[1..]) == s[1..][k..];
      assert s[1..][k..] == s[k + 1..];
    } else {
      assert TrimStart(s) == s[0..];
    }
  }

  lemma {:induction false} TrimEndIsPrefix(s: string)
    ensures exists k :: 0 <= k <= |s| && TrimEnd(s) == s[..k]
    decreases |s|
  {
    if s != [] && s[|s| - 1] == ' ' {
      TrimEndIsPrefix(s[..|s| - 1]);
      var k :| 0 <= k <= |s| - 1 && TrimEnd(s[..|s| - 1]) == s[..|s| - 1][..k];
      assert s[..|s| - 1][..k] == s[..k];
    } else {
      assert TrimEnd(s) == s[..|s|];
    }
  }

  /** Trimming keeps the allowed character set. */
  lemma TrimAllowed(s: string)
    requires AllAllowed(s)
    ensures AllAllowed(Trim(s))
  {
    TrimStartIsSuffix(s);
    var t := TrimStart(s);
    TrimEndIsPrefix(t);
  }

  /** Every piece of a split of allowed text is free of spaces, hence made of tag characters. */
  lemma {:induction false} SplitPieces(s: string)
    requires AllAllowed(s)
    ensures forall k :: 0 <= k < |Split(s)| ==> AllTagChars(Split(s)[k])
    decreases |s|
  {
    if s != [] {
      SplitPieces(s[1..]);
      var rest := Split(s[1..]);
      if s[0] != ' ' {
        var head := [s[0]] + rest[0];
        assert AllTagChars(rest[0]);
        assert forall i :: 0 < i < |head| ==> head[i] == rest[0][i - 1];
        assert AllTagChars(head);
      }
    }
  }

  lemma {:induction false} NonEmptyKeeps(parts: seq<string>)
    requires forall k :: 0 <= k < |parts| ==> AllTagChars(parts[k])
    ensures forall k :: 0 <= k < |NonEmpty(parts)| ==> AllTagChars(NonEmpty(parts)[k])
  {
    if parts != [] {
      NonEmptyKeeps(parts[1..]);
    }
  }

  lemma {:induction false} JoinTagChars(parts: seq<string>)
    requires forall k :: 0 <= k < |parts| ==> AllTagChars(parts[k])
    ensures AllTagChars(Join(parts, "_"))
  {
    if |parts| > 1 {
      JoinTagChars(parts[1..]);
      var j := parts[0] + "_" + Join(parts[1..], "_");
      forall i | 0 <= i < |j| ensures TagChar(j[i]) {
        if i < |parts[0]| {
          assert j[i] == parts[0][i];
        } else if i > |parts[0]| {
          assert j[i] == Join(parts[1..], "_")[i - |parts[0]| - 1];
        }
      }
    }
  }

  /** A normalised tag consists only of `[a-z0-9_:]`: in particular it has no space. */
  lemma SourceTagCharacters(tag: string)
    ensures AllTagChars(BuildSourceTag(tag))
    ensures ' ' !in BuildSourceTag(tag)
  {
    var k := KeepAllowed(AsciiLower(tag));
    TrimAllowed(k);
    SplitPieces(Trim(k));
    NonEmptyKeeps(Split(Trim(k)));
    JoinTagChars(NonEmpty(Split(Trim(k))));
  }

  // ---------------------------------------------------------------------------
  // Idempotence.

  lemma {:induction false} SplitNoSpace(s: string)
    requires ' ' !in s
    ensures Split(s) == [s]
    decreases |s|
  {
    if s != [] {
      assert s[0] in s;
      assert forall c :: c in s[1..] ==> c in s;
      SplitNoSpace(s[1..]);
      assert [s[0]] + s[1..] == s;
    }
  }

  /** Text already made of tag characters is a fixed point of the normalisation. */
  lemma NormalisedIsFixedPoint(s: string)
    requires AllTagChars(s)
    ensures BuildSourceTag(s) == s
  {
    assert AsciiLower(s) == s;
    assert KeepAllowed(s) == s;
    assert TrimStart(s) == s;
    assert TrimEnd(s) == s;
    assert ' ' !in s;
    SplitNoSpace(s);
  }

  /** Normalising a normalised tag changes nothing. */
  lemma SourceTagIdempotent(tag: string)
    ensures BuildSourceTag(BuildSourceTag(tag)) == BuildSourceTag(tag)
  {
    SourceTagCharacters(tag);
    NormalisedIsFixedPoint(BuildSourceTag(tag));
  }

  // ---------------------------------------------------------------------------
  // Runs of spaces between two words become one underscore.

  function Spaces(n: nat): (r: string)
    ensures |r| == n && forall i :: 0 <= i < n ==> r[i] == ' '
  {
    seq(n, _ => ' ')
  }

  lemma {:induction false} KeepAllowedConcat(a: string, b: string)
    ensures KeepAllowed(a + b) == KeepAllowed(a) + KeepAllowed(b)
  {
    if a != [] {
      assert (a + b)[1..] == a[1..] + b;
      KeepAllowedConcat(a[1..], b);
    } else {
      assert a + b == b;
    }
  }

  lemma {:induction false} TrimStartSpaces(n: nat, x: string)
    requires x == [] || x[0] != ' '
    ensures TrimStart(Spaces(n) + x) == x
  {
    if n > 0 {
      assert (Spaces(n) + x)[1..] == Spaces(n - 1) + x;
      TrimStartSpaces(n - 1, x);
    } else {
      assert Spaces(n) + x == x;
    }
  }

  lemma {:induction false} TrimEndSpaces(x: string, n: nat)
    requires x == [] || x[|x| - 1] != ' '
    ensures TrimEnd(x + Spaces(n)) == x
  {
    if n > 0 {
      assert (x + Spaces(n))[..|x| + n - 1] == x + Spaces(n - 1);
      TrimEndSpaces(x, n - 1);
    } else {
      assert x + Spaces(n) == x;
    }
  }

  /** Splitting at one separator splits the two sides independently. */
  lemma {:induction false} SplitConcat(a: string, b: string)
    ensures Split(a + " " + b) == Split(a) + Split(b)
    decreases |a|
  {
    if a == [] {
      assert a + " " + b == " " + b;
      assert (" " + b)[1..] == b;
    } else {
      assert (a + " " + b)[1..] == a[1..] + " " + b;
      SplitConcat(a[1..], b);
    }
  }

  /** Spaces around text that neither starts nor ends with one are trimmed away. */
  lemma TrimAround(n0: nat, inner: string, n2: nat)
    requires inner != [] && inner[0] != ' ' && inner[|inner| - 1] != ' '
    ensures Trim(Spaces(n0) + inner + Spaces(n2)) == inner
  {
    assert Spaces(n0) + inner + Spaces(n2) == Spaces(n0) + (inner + Spaces(n2));
    assert (inner + Spaces(n2))[0] == inner[0];
    TrimStartSpaces(n0, inner + Spaces(n2));
    TrimEndSpaces(inner, n2);
  }

  /** Words with a run of `gaps[i] >= 1` spaces after each word but the last. */
  function Spaced(words: seq<string>, gaps: seq<nat>): string
    requires |words| >= 1 && |gaps| == |words| - 1
  {
    if |words| == 1 then words[0] else words[0] + Spaces(gaps[0]) + Spaced(words[1..], gaps[1..])
  }

  /** Words made of tag characters, none empty, and runs of at least one space between them. */
  predicate WordsAndGaps(words: seq<string>, gaps: seq<nat>) {
    && |words| >= 1 && |gaps| == |words| - 1
    && (forall k :: 0 <= k < |words| ==> words[k] != [] && AllTagChars(words[k]))
    && (forall k :: 0 <= k < |gaps| ==> gaps[k] >= 1)
  }

  /** Spaced words start with the first word's first character and end with the last
      word's last character. */
  lemma {:induction false} SpacedEnds(words: seq<string>, gaps: seq<nat>)
    requires WordsAndGaps(words, gaps)
    ensures Spaced(words, gaps) != []
    ensures Spaced(words, gaps)[0] == words[0][0]
    ensures Spaced(words, gaps)[|Spaced(words, gaps)| - 1] == words[|words| - 1][|words[|words| - 1]| - 1]
  {
    if |words| > 1 {
      assert WordsAndGaps(words[1..], gaps[1..]) by {
        forall k | 0 <= k < |words[1..]| ensures words[1..][k] != [] && AllTagChars(words[1..][k]) {
          assert words[1..][k] == words[k + 1];
        }
        forall k | 0 <= k < |gaps[1..]| ensures gaps[1..][k] >= 1 {
          assert gaps[1..][k] == gaps[k + 1];
        }
      }
      SpacedEnds(words[1..], gaps[1..]);
    }
  }

  /** Dropping the empty pieces distributes over concatenation. */
  lemma {:induction false} NonEmptyConcat(a: seq<string>, b: seq<string>)
    ensures NonEmpty(a + b) == NonEmpty(a) + NonEmpty(b)
  {
    if a != [] {
      assert (a + b)[1..] == a[1..] + b;
      NonEmptyConcat(a[1..], b);
    } else {
      assert a + b == b;
    }
  }

  /** Leading spaces only contribute empty pieces. */
  lemma {:induction false} SpacesVanish(m: nat, x: string)
    ensures NonEmpty(Split(Spaces(m) + x)) == NonEmpty(Split(x))
  {
    if m == 0 {
      assert Spaces(m) + x == x;
    } else {
      var y := Spaces(m - 1) + x;
      assert Spaces(m) + x == "" + " " + y;
      SplitConcat("", y);
      assert ([""] + Split(y))[1..] == Split(y);
      SpacesVanish(m - 1, x);
    }
  }

  /** Words separated by runs of spaces split into exactly those words. */
  lemma {:induction false} SpacedWords(words: seq<string>, gaps: seq<nat>)
    requires WordsAndGaps(words, gaps)
    ensures NonEmpty(Split(Spaced(words, gaps))) == words
  {
    var w := words[0];
    assert ' ' !in w;
    SplitNoSpace(w);
    if |words| == 1 {
      assert NonEmpty([w]) == [w] + NonEmpty([]);
    } else {
      assert WordsAndGaps(words[1..], gaps[1..]) by {
        forall k | 0 <= k < |words[1..]| ensures words[1..][k] != [] && AllTagChars(words[1..][k]) {
          assert words[1..][k] == words[k + 1];
        }
        forall k | 0 <= k < |gaps[1..]| ensures gaps[1..][k] >= 1 {
          assert gaps[1..][k] == gaps[k + 1];
        }
      }
      var rest := Spaced(words[1..], gaps[1..]);
      var y := Spaces(gaps[0] - 1) + rest;
      assert Spaced(words, gaps) == w + " " + y;
      SplitConcat(w, y);
      NonEmptyConcat([w], Split(y));
      assert NonEmpty([w]) == [w] + NonEmpty([]);
      SpacesVanish(gaps[0] - 1, rest);
      SpacedWords(words[1..], gaps[1..]);
      assert [w] + words[1..] == words;
    }
  }

  /** After the filter, surrounding spaces are dropped and every run of spaces between two
      words becomes a single `_`, however many words and spaces there are. */
  lemma ManyWords(s: string, n0: nat, words: seq<string>, gaps: seq<nat>, n2: nat)
    requires WordsAndGaps(words, gaps)
    requires s == Spaces(n0) + Spaced(words, gaps) + Spaces(n2)
    ensures JoinWords(s) == Join(words, "_")
  {
    var inner := Spaced(words, gaps);
    SpacedEnds(words, gaps);
    TrimAround(n0, inner, n2);
    SpacedWords(words, gaps);
  }

  /** Two words with spaces around and between them come out joined by a single `_`,
      however many spaces there were. */
  lemma TwoWords(s: string, n0: nat, w1: string, n1: nat, w2: string, n2: nat)
    requires w1 != [] && AllTagChars(w1) && w2 != [] && AllTagChars(w2)
    requires n1 >= 1
    requires s == Spaces(n0) + w1 + Spaces(n1) + w2 + Spaces(n2)
    ensures JoinWords(s) == w1 + "_" + w2
  {
    var words, gaps := [w1, w2], [n1];
    assert words[1..] == [w2] && gaps[1..] == [];
    assert Spaced(words, gaps) == w1 + Spaces(n1) + w2;
    assert s == Spaces(n0) + Spaced(words, gaps) + Spaces(n2);
    ManyWords(s, n0, words, gaps, n2);
    assert Join(words, "_") == w1 + "_" + Join([w2], "_");
  }

  /** The filter applied piecewise. */
  lemma FilterConcat(a: string, b: string)
    ensures KeepAllowed(AsciiLower(a + b)) == KeepAllowed(AsciiLower(a)) + KeepAllowed(AsciiLower(b))
  {
    AsciiLowerConcat(a, b);
    KeepAllowedConcat(AsciiLower(a), AsciiLower(b));
  }

  /** Two words separated by text that filters down to spaces come out joined by one `_`. */
  lemma TwoWordTag(tag: string, lead: string, raw1: string, gap: string, raw2: string, tail: string,
                   n0: nat, w1: string, n1: nat, w2: string, n2: nat)
    requires tag == lead + raw1 + gap + raw2 + tail
    requires w1 != [] && AllTagChars(w1) && w2 != [] && AllTagChars(w2) && n1 >= 1
    requires KeepAllowed(AsciiLower(lead)) == Spaces(n0)
    requires KeepAllowed(AsciiLower(raw1)) == w1
    requires KeepAllowed(AsciiLower(gap)) == Spaces(n1)
    requires KeepAllowed(AsciiLower(raw2)) == w2
    requires KeepAllowed(AsciiLower(tail)) == Spaces(n2)
    ensures BuildSourceTag(tag) == w1 + "_" + w2
  {
    FilterConcat(lead + raw1 + gap + raw2, tail);
    FilterConcat(lead + raw1 + gap, raw2);
    FilterConcat(lead + raw1, gap);
    FilterConcat(lead, raw1);
    var k := KeepAllowed(AsciiLower(lead + raw1 + gap + raw2 + tail));
    TwoWords(k, n0, w1, n1, w2, n2);
  }

  /** Text without an allowed character filters to nothing. */
  lemma {:induction false} NoneAllowed(s: string)
    requires forall i :: 0 <= i < |s| ==> !AllowedChar(s[i])
    ensures KeepAllowed(s) == []
  {
    if s != [] {
      NoneAllowed(s[1..]);
    }
  }

  /** A run of spaces filters to itself. */
  lemma SpacesKept(t: string, n: nat)
    requires t == Spaces(n)
    ensures KeepAllowed(AsciiLower(t)) == Spaces(n)
  {
    assert AsciiLower(t) == t;
    assert AllAllowed(t);
  }

  /** A word whose lowercase form consists of tag characters filters to that form. */
  lemma WordKept(raw: string, w: string)
    requires AsciiLower(raw) == w && AllTagChars(w)
    ensures KeepAllowed(AsciiLower(raw)) == w
  {
    assert AllAllowed(w);
  }

  // The literal facts the two test tags need, one per lemma: stated inside the
  // examples, where every literal of the tag is in scope, they cost the solver too much.

  lemma LowerHello(raw: string, w: string)
    requires raw == "Hello" && w == "hello"
    ensures AsciiLower(raw) == w && AllTagChars(w)
  {
  }

  lemma LowerWorld(raw: string, w: string)
    requires raw == "World" && w == "world"
    ensures AsciiLower(raw) == w && AllTagChars(w)
  {
  }

  lemma LowerWorldColons(raw: string, w: string)
    requires raw == "World__:_" && w == "world__:_"
    ensures AsciiLower(raw) == w && AllTagChars(w)
  {
  }

  lemma BangsThenSpace(t: string)
    requires t == "!! "
    ensures KeepAllowed(AsciiLower(t)) == Spaces(1)
  {
    assert AsciiLower(t) == t;
  }

  lemma SymbolsDropped(symbols: string)
    requires symbols == "!@#@#"
    ensures KeepAllowed(AsciiLower(symbols)) == []
  {
    assert AsciiLower(symbols) == symbols;
    NoneAllowed(symbols);
  }

  lemma SymbolsThenSpaces(t: string)
    requires t == "!@#@#   "
    ensures KeepAllowed(AsciiLower(t)) == Spaces(3)
  {
    var symbols, spaces := t[..5], t[5..];
    assert symbols == "!@#@#" && spaces == "   ";
    assert t == symbols + spaces;
    FilterConcat(symbols, spaces);
    SymbolsDropped(symbols);
    SpacesKept(spaces, 3);
  }

  /** `"    Hello   World!! "` becomes `"hello_world"`. */
  lemma HelloWorldExample(lead: string, raw1: string, gap: string, raw2: string, tail: string)
    requires lead == "    " && raw1 == "Hello" && gap == "   " && raw2 == "World" && tail == "!! "
    ensures BuildSourceTag(lead + raw1 + gap + raw2 + tail) == "hello" + "_" + "world"
  {
    var w1, w2 := "hello", "world";
    LowerHello(raw1, w1);
    WordKept(raw1, w1);
    LowerWorld(raw2, w2);
    WordKept(raw2, w2);
    SpacesKept(lead, 4);
    SpacesKept(gap, 3);
    BangsThenSpace(tail);
    TwoWordTag(lead + raw1 + gap + raw2 + tail, lead, raw1, gap, raw2, tail, 4, w1, 3, w2, 1);
  }

  /** `" Hello   World__:_!@#@#   "` becomes `"hello_world__:_"`: underscores and colons stay. */
  lemma SpecialCharsExample(lead: string, raw1: string, gap: string, raw2: string, tail: string)
    requires lead == " " && raw1 == "Hello" && gap == "   " && raw2 == "World__:_" && tail == "!@#@#   "
    ensures BuildSourceTag(lead + raw1 + gap + raw2 + tail) == "hello" + "_" + "world__:_"
  {
    var w1, w2 := "hello", "world__:_";
    LowerHello(raw1, w1);
    WordKept(raw1, w1);
    LowerWorldColons(raw2, w2);
    WordKept(raw2, w2);
    SpacesKept(lead, 1);
    SpacesKept(gap, 3);
    SymbolsThenSpaces(tail);
    TwoWordTag(lead + raw1 + gap + raw2 + tail, lead, raw1, gap, raw2, tail, 1, w1, 3, w2, 3);
  }

  /** Without a tag the user agent is exactly the base string. */
  lemma UntaggedUserAgentExample()
    ensures UserAgentFor(None) == "lang=rust; pinecone-rust-client=0.1.0"
  {
  }

  /** With the tag `"tag"`, already normalised, the user agent ends in `; source_tag=tag`. */
  lemma TaggedUserAgentExample(tag: string)
    requires tag == "tag"
    ensures UserAgentFor(Some(tag)) == BaseUserAgent + "; source_tag=" + tag
  {
    assert AllTagChars(tag);
    NormalisedIsFixedPoint(tag);
  }
}
