/**
 * From a Morse string to text: split into words on " / ", each word into
 * letter groups on " ", look every group up in the Morse table ('?' when it
 * is missing), join the letters of a word with nothing and the words with
 * one space. `Split` and `Join` follow JavaScript's `String.prototype.split`
 * with a non-empty string separator and `Array.prototype.join`.
 */
module MorseText {

  const LetterSep: string := " "
  const WordSep: string := " / "

  /** `s.split(sep)`: cut at the leftmost non-overlapping occurrences of `sep`. */
  function Split(s: string, sep: string): (parts: seq<string>)
    requires |sep| > 0
    ensures |parts| > 0
    decreases |s|
  {
    if |s| < |sep| then [s]
    else if s[..|sep|] == sep then [""] + Split(s[|sep|..], sep)
    else
      var rest := Split(s[1..], sep);
      [[s[0]] + rest[0]] + rest[1..]
  }

  /** `parts.join(sep)`: every part in order, with one `sep` between neighbours. */
  function Join(parts: seq<string>, sep: string): (joined: string)
    ensures |parts| > 0 ==> |joined| == TotalLength(parts) + (|parts| - 1) * |sep|
  {
    if |parts| == 0 then ""
    else if |parts| == 1 then parts[0]
    else parts[0] + sep + Join(parts[1..], sep)
  }

  /** Nothing is lost by splitting: joining the parts with `sep` gives `s` back. */
  lemma {:induction false} JoinSplit(s: string, sep: string)
    requires |sep| > 0
    ensures Join(Split(s, sep), sep) == s
    decreases |s|
  {
    if |s| >= |sep| {
      var parts := Split(s, sep);
      if s[..|sep|] == sep {
        var tail := s[|sep|..];
        JoinSplit(tail, sep);
        assert parts == [""] + Split(tail, sep);
        assert parts[1..] == Split(tail, sep);
        assert Join(parts, sep) == "" + sep + Join(Split(tail, sep), sep);
        assert s == sep + tail;
      } else {
        var rest := Split(s[1..], sep);
        JoinSplit(s[1..], sep);
        assert parts == [[s[0]] + rest[0]] + rest[1..];
        if |rest| == 1 {
          assert Join(parts, sep) == [s[0]] + rest[0];
        } else {
          assert parts[1..] == rest[1..];
          assert Join(rest, sep) == rest[0] + sep + Join(rest[1..], sep);
          assert Join(parts, sep) == ([s[0]] + rest[0]) + sep + Join(rest[1..], sep);
        }
        assert s == [s[0]] + s[1..];
      }
    }
  }

  /**
   * A character that marks `sep`: it stands at position `m` of `sep` and
   * nowhere before it there. For " " it is the space, for " / " the slash.
   */
  predicate Marker(sep: string, m: nat)
  {
    m < |sep| && sep[m] !in sep[..m]
  }

  /** A string without the marker character is never cut. */
  lemma {:induction false} SplitWithoutMarker(p: string, sep: string, m: nat)
    requires Marker(sep, m) && sep[m] !in p
    ensures Split(p, sep) == [p]
    decreases |p|
  {
    if |p| >= |sep| {
      assert p[..|sep|][m] == p[m];
      SplitWithoutMarker(p[1..], sep, m);
      assert [p[0]] + p[1..] == p;
    }
  }

  /** The first cut of `p + sep + rest` falls right after `p` when `p` lacks the marker. */
  lemma {:induction false} SplitAtFirstSep(p: string, sep: string, rest: string, m: nat)
    requires Marker(sep, m) && sep[m] !in p
    ensures Split(p + sep + rest, sep) == [p] + Split(rest, sep)
    decreases |p|
  {
    var s := p + sep + rest;
    if |p| == 0 {
      assert s == sep + rest;
      assert s[..|sep|] == sep;
      assert s[|sep|..] == rest;
    } else {
      assert s[..|sep|][m] == s[m];
      if m < |p| {
        assert s[m] == p[m];
      } else {
        assert s[m] == sep[m - |p|];
        assert sep[m - |p|] == sep[..m][m - |p|];
      }
      assert s[..|sep|] != sep;
      assert s[1..] == p[1..] + sep + rest;
      SplitAtFirstSep(p[1..], sep, rest, m);
      assert [p[0]] + p[1..] == p;
    }
  }

  /** Joining marker-free parts and splitting again gives the parts back. */
  lemma {:induction false} SplitJoin(parts: seq<string>, sep: string, m: nat)
    requires Marker(sep, m) && |parts| > 0
    requires forall k :: 0 <= k < |parts| ==> sep[m] !in parts[k]
    ensures Split(Join(parts, sep), sep) == parts
  {
    if |parts| == 1 {
      SplitWithoutMarker(parts[0], sep, m);
    } else {
      SplitJoin(parts[1..], sep, m);
      SplitAtFirstSep(parts[0], sep, Join(parts[1..], sep), m);
      assert [parts[0]] + parts[1..] == parts;
    }
  }

  /** A character in neither the parts nor the separator is not in their join. */
  lemma {:induction false} JoinAvoids(parts: seq<string>, sep: string, c: char)
    requires c !in sep
    requires forall k :: 0 <= k < |parts| ==> c !in parts[k]
    ensures c !in Join(parts, sep)
  {
    if |parts| > 1 {
      JoinAvoids(parts[1..], sep, c);
    }
  }

  /** `MORSE_MAP[code] || '?'`. */
  function Lookup(table: map<string, char>, code: string): char
  {
    if code in table then table[code] else '?'
  }

  /** `groups.map(code => MORSE_MAP[code] || '?').join('')`: one character per group. */
  function LookupAll(table: map<string, char>, groups: seq<string>): (text: string)
    ensures |text| == |groups|
    ensures forall k :: 0 <= k < |groups| ==> text[k] == Lookup(table, groups[k])
  {
    if |groups| == 0 then ""
    else [Lookup(table, groups[0])] + LookupAll(table, groups[1..])
  }

  /** One word: its letter groups, looked up. */
  function DecodeWord(table: map<string, char>, word: string): (text: string)
    ensures |text| == |Split(word, LetterSep)|
  {
    LookupAll(table, Split(word, LetterSep))
  }

  function DecodeWords(table: map<string, char>, words: seq<string>): (texts: seq<string>)
    ensures |texts| == |words|
    ensures forall k :: 0 <= k < |words| ==> texts[k] == DecodeWord(table, words[k])
  {
    if |words| == 0 then []
    else [DecodeWord(table, words[0])] + DecodeWords(table, words[1..])
  }

  /** The decode expression of `decodeTimings`. */
  function DecodeMorse(table: map<string, char>, morse: string): string
  {
    Join(DecodeWords(table, Split(morse, WordSep)), " ")
  }

  /** A letter group over dots and dashes. */
  predicate IsCode(g: string)
  {
    forall i :: 0 <= i < |g| ==> g[i] == '.' || g[i] == '-'
  }

  /** Words given as lists of letter groups, written out the way the morse loop separates them. */
  function EncodeWords(words: seq<seq<string>>): (morse: string)
  {
    Join(JoinGroups(words), WordSep)
  }

  function JoinGroups(words: seq<seq<string>>): (joined: seq<string>)
    ensures |joined| == |words|
    ensures forall k :: 0 <= k < |words| ==> joined[k] == Join(words[k], LetterSep)
  {
    if |words| == 0 then []
    else [Join(words[0], LetterSep)] + JoinGroups(words[1..])
  }

  /** The text the table gives for each word's groups. */
  function LookupWords(table: map<string, char>, words: seq<seq<string>>): (texts: seq<string>)
    ensures |texts| == |words|
    ensures forall k :: 0 <= k < |words| ==> texts[k] == LookupAll(table, words[k])
  {
    if |words| == 0 then []
    else [LookupAll(table, words[0])] + LookupWords(table, words[1..])
  }

  predicate WellFormedWords(words: seq<seq<string>>)
  {
    && |words| > 0
    && (forall k :: 0 <= k < |words| ==> |words[k]| > 0)
    && (forall k, j :: 0 <= k < |words| && 0 <= j < |words[k]| ==> IsCode(words[k][j]))
  }

  /**
   * Round trip: written out with " " between groups and " / " between words,
   * non-empty words of dot-dash groups split back into the same words and
   * groups, so the decoded text has exactly one character per group (the
   * table's, or '?') and the words separated by one space.
   */
  lemma DecodeEncoded(table: map<string, char>, words: seq<seq<string>>)
    requires WellFormedWords(words)
    ensures Split(EncodeWords(words), WordSep) == JoinGroups(words)
    ensures forall k :: 0 <= k < |words| ==> Split(JoinGroups(words)[k], LetterSep) == words[k]
    ensures DecodeMorse(table, EncodeWords(words)) == Join(LookupWords(table, words), " ")
  {
    assert Marker(LetterSep, 0);
    assert Marker(WordSep, 1) by { assert WordSep[..1] == " "; }
    var joined := JoinGroups(words);
    forall k | 0 <= k < |words|
      ensures Split(joined[k], LetterSep) == words[k]
      ensures '/' !in joined[k]
    {
      forall j | 0 <= j < |words[k]|
        ensures ' ' !in words[k][j] && '/' !in words[k][j]
      {
        assert IsCode(words[k][j]);
      }
      SplitJoin(words[k], LetterSep, 0);
      JoinAvoids(words[k], LetterSep, '/');
    }
    SplitJoin(joined, WordSep, 1);
    assert DecodeWords(table, joined) == LookupWords(table, words);
  }

  /** Sum of the lengths of the parts. */
  function TotalLength(parts: seq<string>): nat
  {
    if |parts| == 0 then 0 else |parts[0]| + TotalLength(parts[1..])
  }

  /** Number of letter groups over all words. */
  function GroupCount(words: seq<string>): nat
  {
    if |words| == 0 then 0 else |Split(words[0], LetterSep)| + GroupCount(words[1..])
  }

  lemma {:induction false} DecodedWordsLength(table: map<string, char>, words: seq<string>)
    ensures TotalLength(DecodeWords(table, words)) == GroupCount(words)
  {
    if |words| > 0 {
      DecodedWordsLength(table, words[1..]);
      assert DecodeWords(table, words)[1..] == DecodeWords(table, words[1..]);
    }
  }

  /**
   * The decoded text holds exactly one character per letter group of every
   * word, plus one space between neighbouring words.
   */
  lemma DecodedLength(table: map<string, char>, morse: string)
    ensures |DecodeMorse(table, morse)| ==
      GroupCount(Split(morse, WordSep)) + |Split(morse, WordSep)| - 1
  {
    var words := Split(morse, WordSep);
    DecodedWordsLength(table, words);
  }

  /** With no tone the morse string is empty; its single empty group decodes to '?'. */
  lemma EmptyMorse(table: map<string, char>)
    requires "" !in table
    ensures DecodeMorse(table, "") == "?"
  {
    assert Split("", WordSep) == [""];
    assert Split("", LetterSep) == [""];
  }

  /** "... --- ..." is one word of three groups and decodes to "SOS" under the ITU table. */
  lemma DecodeSos(table: map<string, char>)
    requires "..." in table && table["..."] == 'S'
    requires "---" in table && table["---"] == 'O'
    ensures DecodeMorse(table, "... --- ...") == "SOS"
  {
    var words := [["...", "---", "..."]];
    assert IsCode("...") && IsCode("---");
    assert EncodeWords(words) == "... --- ...";
    DecodeEncoded(table, words);
  }
}
