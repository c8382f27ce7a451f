/**
 * src/experiment/data/tokenizer.py: the character tokenizer. Its
 * vocabulary is the sorted, duplicate-free list of the configured tokens;
 * `stoi` and `itos` number them from 0. Texts are encoded character by
 * character, so a configured token longer than one character is in the
 * vocabulary but never produced by `encode`.
 */
module Tokenizer {
  import opened Wrappers
  import opened PyStrings

  datatype CharTokenizer = CharTokenizer(vocabulary: seq<string>, vocabSize: nat, stoi: map<string, int>, itos: map<int, string>)

  /** The state `__init__` leaves: a strictly sorted vocabulary, numbered by `stoi`, named back by `itos`. */
  ghost predicate Valid(t: CharTokenizer) {
    && StrictlySorted(t.vocabulary)
    && t.vocabSize == |t.vocabulary|
    && (forall s :: s in t.stoi <==> s in t.vocabulary)
    && (forall i :: 0 <= i < |t.vocabulary| ==> t.vocabulary[i] in t.stoi && t.stoi[t.vocabulary[i]] == i)
    && (forall i :: i in t.itos <==> 0 <= i < |t.vocabulary|)
    && (forall i :: 0 <= i < |t.vocabulary| ==> i in t.itos && t.itos[i] == t.vocabulary[i])
  }

  lemma {:induction false} DistinctWhenStrictlySorted(v: seq<string>)
    requires StrictlySorted(v)
    ensures forall i, j :: 0 <= i < |v| && 0 <= j < |v| && v[i] == v[j] ==> i == j
  {
    forall i, j | 0 <= i < |v| && 0 <= j < |v| && v[i] == v[j] ensures i == j {
      if i < j || j < i { LessIrreflexive(v[i]); }
    }
  }

  /** `stoi = {s: i for i, s in enumerate(vocabulary)}`. */
  function StoiOf(v: seq<string>): map<string, int>
    requires StrictlySorted(v)
  {
    DistinctWhenStrictlySorted(v);
    map i | 0 <= i < |v| :: v[i] := i
  }

  /** `itos = {i: s for i, s in enumerate(vocabulary)}`. */
  function ItosOf(v: seq<string>): map<int, string> {
    map i | 0 <= i < |v| :: v[i]
  }

  /** Numbering a strictly sorted vocabulary from 0 gives a valid tokenizer. */
  lemma NumberingValid(v: seq<string>)
    requires StrictlySorted(v)
    ensures Valid(CharTokenizer(v, |v|, StoiOf(v), ItosOf(v)))
  {
    DistinctWhenStrictlySorted(v);
    var stoi := StoiOf(v);
    forall i | 0 <= i < |v| ensures v[i] in stoi && stoi[v[i]] == i {
      assert v[i] in stoi;
    }
  }

  /** `CharTokenizer(config)`. */
  function NewTokenizer(configVocabulary: seq<string>): (t: CharTokenizer)
    ensures Valid(t)
    ensures forall s :: s in t.vocabulary <==> s in configVocabulary
  {
    var v := SortedDistinct(configVocabulary);
    NumberingValid(v);
    CharTokenizer(v, |v|, StoiOf(v), ItosOf(v))
  }

  /** The vocabulary is `sorted(set(config.vocabulary))`: any strictly sorted list of the same tokens is it. */
  lemma VocabularyIsSortedSet(configVocabulary: seq<string>, sorted: seq<string>)
    requires StrictlySorted(sorted) && forall s :: s in sorted <==> s in configVocabulary
    ensures NewTokenizer(configVocabulary).vocabulary == sorted
  {
    StrictlySortedUnique(NewTokenizer(configVocabulary).vocabulary, sorted);
  }

  /** `stoi` and `itos` are inverse bijections between the vocabulary and `0 .. vocab_size - 1`. */
  lemma {:induction false} StoiItosInverse(t: CharTokenizer)
    requires Valid(t)
    ensures forall s :: s in t.stoi ==> 0 <= t.stoi[s] < t.vocabSize && t.stoi[s] in t.itos && t.itos[t.stoi[s]] == s
    ensures forall i :: i in t.itos ==> t.itos[i] in t.stoi && t.stoi[t.itos[i]] == i
  {
    forall s | s in t.stoi
      ensures 0 <= t.stoi[s] < t.vocabSize && t.stoi[s] in t.itos && t.itos[t.stoi[s]] == s
    {
      var k :| 0 <= k < |t.vocabulary| && t.vocabulary[k] == s;
      assert t.stoi[s] == k;
    }
  }

  datatype TokenError = KeyError(key: string)

  /** `[self.stoi[c] for c in t]`: the first character outside `stoi` is a KeyError. */
  function EncodeText(t: CharTokenizer, s: string): (r: Result<seq<int>, TokenError>)
    ensures r.Ok? <==> forall j :: 0 <= j < |s| ==> [s[j]] in t.stoi
    ensures r.Ok? ==> |r.value| == |s| && forall j :: 0 <= j < |s| ==> r.value[j] == t.stoi[[s[j]]]
  {
    if s == [] then Ok([])
    else if [s[0]] !in t.stoi then Err(KeyError([s[0]]))
    else
      var rest := EncodeText(t, s[1..]);
      assert forall j :: 1 <= j < |s| ==> s[j] == s[1..][j - 1];
      if rest.Err? then Err(rest.error) else Ok([t.stoi[[s[0]]]] + rest.value)
  }

  /** The KeyError names the first character of the text that is not in `stoi`. */
  lemma {:induction false} EncodeTextFirstUnknown(t: CharTokenizer, s: string)
    requires EncodeText(t, s).Err?
    ensures exists j :: (0 <= j < |s| && EncodeText(t, s).error.key == [s[j]] && [s[j]] !in t.stoi
      && forall j' :: 0 <= j' < j ==> [s[j']] in t.stoi)
  {
    if [s[0]] in t.stoi {
      EncodeTextFirstUnknown(t, s[1..]);
      var j :| 0 <= j < |s[1..]| && EncodeText(t, s[1..]).error.key == [s[1..][j]] && [s[1..][j]] !in t.stoi
        && forall j' :: 0 <= j' < j ==> [s[1..][j']] in t.stoi;
      assert forall j' :: 1 <= j' < j + 1 ==> s[j'] == s[1..][j' - 1];
      assert EncodeText(t, s[1..]).error.key == [s[j + 1]];
    } else {
      assert EncodeText(t, s).error.key == [s[0]];
    }
  }

  /** `encode(texts)`: one row per text, each as long as its text; a KeyError from any text stops it. */
  method Encode(t: CharTokenizer, texts: seq<string>) returns (r: Result<seq<seq<int>>, TokenError>)
    ensures r.Ok? <==> forall i :: 0 <= i < |texts| ==> EncodeText(t, texts[i]).Ok?
    ensures r.Ok? ==> |r.value| == |texts| && forall i :: 0 <= i < |texts| ==> r.value[i] == EncodeText(t, texts[i]).value
    ensures r.Err? ==> exists i :: (0 <= i < |texts| && EncodeText(t, texts[i]) == Err(r.error)
      && forall k :: 0 <= k < i ==> EncodeText(t, texts[k]).Ok?)
  {
    var tokens := [];
    for i := 0 to |texts|
      invariant |tokens| == i
      invariant forall k :: 0 <= k < i ==> EncodeText(t, texts[k]).Ok? && tokens[k] == EncodeText(t, texts[k]).value
    {
      var row := EncodeText(t, texts[i]);
      if row.Err? {
        return Err(row.error);
      }
      tokens := tokens + [row.value];
    }
    return Ok(tokens);
  }

  /** `[self.itos.get(i, '') for i in ts]`: unknown ids become empty strings. */
  function DecodeIds(t: CharTokenizer, ids: seq<int>): (r: seq<string>)
    ensures |r| == |ids|
    ensures forall j :: 0 <= j < |ids| ==> r[j] == if ids[j] in t.itos then t.itos[ids[j]] else ""
  {
    if ids == [] then [] else [if ids[0] in t.itos then t.itos[ids[0]] else ""] + DecodeIds(t, ids[1..])
  }

  /** `decode_each(tokens)`: one list of fragments per row. */
  method DecodeEach(t: CharTokenizer, tokens: seq<seq<int>>) returns (decoded: seq<seq<string>>)
    ensures |decoded| == |tokens| && forall i :: 0 <= i < |tokens| ==> decoded[i] == DecodeIds(t, tokens[i])
  {
    decoded := [];
    for i := 0 to |tokens|
      invariant |decoded| == i && forall k :: 0 <= k < i ==> decoded[k] == DecodeIds(t, tokens[k])
    {
      decoded := decoded + [DecodeIds(t, tokens[i])];
    }
  }

  /** A row decoded to one string: `''.join` of its fragments. */
  function DecodeRow(t: CharTokenizer, ids: seq<int>): string {
    Concat(DecodeIds(t, ids))
  }

  /** `decode(tokens)`: each row of `decode_each`, joined. */
  method Decode(t: CharTokenizer, tokens: seq<seq<int>>) returns (texts: seq<string>)
    ensures |texts| == |tokens| && forall i :: 0 <= i < |tokens| ==> texts[i] == DecodeRow(t, tokens[i])
  {
    var each := DecodeEach(t, tokens);
    texts := seq(|each|, i requires 0 <= i < |each| => Concat(each[i]));
  }

  /** Decoding an id list one id at a time from the front. */
  lemma DecodeRowCons(t: CharTokenizer, id: int, rest: seq<int>)
    ensures DecodeRow(t, [id] + rest) == (if id in t.itos then t.itos[id] else "") + DecodeRow(t, rest)
  {
    assert ([id] + rest)[1..] == rest;
  }

  /** Encoding a text one character at a time from the front. */
  lemma EncodeTextCons(t: CharTokenizer, s: string)
    requires s != [] && [s[0]] in t.stoi && EncodeText(t, s[1..]).Ok?
    ensures EncodeText(t, s) == Ok([t.stoi[[s[0]]]] + EncodeText(t, s[1..]).value)
  {
  }

  /** Encoding a text whose characters are all in the vocabulary, then decoding it, gives the text back. */
  lemma {:induction false} RoundTrip(t: CharTokenizer, s: string)
    requires Valid(t)
    requires forall j :: 0 <= j < |s| ==> [s[j]] in t.vocabulary
    ensures EncodeText(t, s).Ok?
    ensures DecodeRow(t, EncodeText(t, s).value) == s
  {
    if s != [] {
      assert forall j :: 1 <= j < |s| ==> s[j] == s[1..][j - 1];
      RoundTrip(t, s[1..]);
      var c := [s[0]];
      assert c == t.vocabulary[t.stoi[c]] by {
        var k :| 0 <= k < |t.vocabulary| && t.vocabulary[k] == c;
      }
      EncodeTextCons(t, s);
      var rest := EncodeText(t, s[1..]).value;
      DecodeRowCons(t, t.stoi[c], rest);
      assert s == c + s[1..];
    }
  }

  /** The characters of a string, in order, each as a one-character token. */
  function Chars(s: string): (r: seq<string>)
    ensures |r| == |s| && forall j :: 0 <= j < |s| ==> r[j] == [s[j]]
  {
    if s == [] then [] else [[s[0]]] + Chars(s[1..])
  }

  /** `CharTokenizer.from_string(s)`: a tokenizer over `sorted(set(s))`. */
  function FromString(s: string): (t: CharTokenizer)
    ensures Valid(t)
    ensures forall tok :: tok in t.vocabulary <==> |tok| == 1 && tok[0] in s
  {
    CharsMembership(s);
    NewTokenizer(SortedDistinct(Chars(s)))
  }

  /** The tokens of `Chars(s)` are exactly the one-character strings of the characters of `s`. */
  lemma CharsMembership(s: string)
    ensures forall tok :: tok in Chars(s) <==> |tok| == 1 && tok[0] in s
  {
    forall tok ensures tok in Chars(s) <==> |tok| == 1 && tok[0] in s {
      if |tok| == 1 && tok[0] in s {
        var j :| 0 <= j < |s| && s[j] == tok[0];
        assert Chars(s)[j] == tok;
      }
    }
  }

  /** A tokenizer built from `s` encodes `s` without error, and decoding gives `s` back. */
  lemma FromStringEncodesItsString(s: string)
    ensures EncodeText(FromString(s), s).Ok?
    ensures DecodeRow(FromString(s), EncodeText(FromString(s), s).value) == s
  {
    RoundTrip(FromString(s), s);
  }
}
