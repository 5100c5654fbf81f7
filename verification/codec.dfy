/**
 * The flat text protocol between the wristband and its subscribers.
 *
 * The publisher sends `str(message)`, the Python rendering of a dict
 * (`{'key': value, ...}`); both subscribers read it back with the same
 * hand-written `string_to_json`, which deletes the braces, splits on ", ",
 * splits each piece on ": " and deletes every single quote.
 */
module Codec {
  import opened Wrappers
  import opened Numerals

  /** The Python exceptions the modelled code paths can raise. */
  datatype Fault = IndexError(context: string) | KeyError(key: string) | ValueError(text: string)

  /** The values the publisher stores in a record. */
  datatype Value = Str(s: string) | Int(i: int) | Float(x: real)

  /** A Python dict: its keys in insertion order and the current value of each. */
  datatype Dict = Dict(keys: seq<string>, vals: map<string, Value>) {

    predicate Valid() {
      && (forall i, j :: 0 <= i < j < |keys| ==> keys[i] != keys[j])
      && (forall k :: k in keys ==> k in vals)
      && (forall k :: k in vals ==> k in keys)
    }

    /** `message[k] = v`: a new key goes last, an existing key keeps its place. */
    function Insert(k: string, v: Value): Dict {
      Dict(if k in vals then keys else keys + [k], vals[k := v])
    }
  }

  /** Assigning a key keeps a dict well formed, binds the key, and leaves every other key alone. */
  lemma InsertKeepsValid(d: Dict, k: string, v: Value)
    requires d.Valid()
    ensures d.Insert(k, v).Valid()
    ensures k in d.Insert(k, v).vals && d.Insert(k, v).vals[k] == v
    ensures forall j :: j in d.vals && j != k ==> j in d.Insert(k, v).vals && d.Insert(k, v).vals[j] == d.vals[j]
    ensures |d.Insert(k, v).keys| == if k in d.vals then |d.keys| else |d.keys| + 1
    ensures k in d.vals ==> d.Insert(k, v).keys == d.keys
    ensures k !in d.vals ==> d.Insert(k, v).keys == d.keys + [k]
  {
    var r := d.Insert(k, v);
    if k !in d.vals {
      forall i, j | 0 <= i < j < |r.keys| ensures r.keys[i] != r.keys[j] {
        if j == |d.keys| {
          assert r.keys[i] == d.keys[i] && d.keys[i] in d.keys;
        } else {
          assert r.keys[i] == d.keys[i] && r.keys[j] == d.keys[j];
        }
      }
    }
  }

  /**
   * Appending distinct new keys, together with their values, to a
   * well-formed dict gives a well-formed dict.
   */
  lemma ValidExtend(d: Dict, ks: seq<string>, extra: map<string, Value>, r: Dict)
    requires d.Valid()
    requires forall i, j :: 0 <= i < j < |ks| ==> ks[i] != ks[j]
    requires forall k :: k in ks ==> k !in d.vals
    requires forall k :: k in extra <==> k in ks
    requires r.keys == d.keys + ks && r.vals == d.vals + extra
    ensures r.Valid()
  {
    forall i, j | 0 <= i < j < |r.keys| ensures r.keys[i] != r.keys[j] {
      if j < |d.keys| {
        assert r.keys[i] == d.keys[i] && r.keys[j] == d.keys[j];
      } else if i < |d.keys| {
        assert r.keys[i] == d.keys[i] && d.keys[i] in d.keys;
        assert r.keys[j] == ks[j - |d.keys|] && ks[j - |d.keys|] in ks;
      } else {
        assert r.keys[i] == ks[i - |d.keys|] && r.keys[j] == ks[j - |d.keys|];
      }
    }
  }

  const EmptyDict: Dict := Dict([], map[])

  // ---------------------------------------------------------------------
  // Encoding: str(message)
  // ---------------------------------------------------------------------

  function Quote(s: string): string {
    "'" + s + "'"
  }

  /**
   * The rendering of one value inside `str(dict)`: strings in single quotes,
   * integers in decimal; the rendering of a float is Python's float repr,
   * which the model takes as the parameter `showFloat`.
   */
  function ValueRepr(v: Value, showFloat: real -> string): string {
    match v
    case Str(s) => Quote(s)
    case Int(i) => IntToString(i)
    case Float(x) => showFloat(x)
  }

  /** The text a subscriber gets back for a value: every decoded value is a string. */
  function ValueText(v: Value, showFloat: real -> string): string {
    match v
    case Str(s) => s
    case Int(i) => IntToString(i)
    case Float(x) => showFloat(x)
  }

  function EntryRepr(k: string, v: Value, showFloat: real -> string): string {
    Quote(k) + ": " + ValueRepr(v, showFloat)
  }

  /** The entries of `str(message)`, one per key, in insertion order. */
  function EntryReprs(keys: seq<string>, vals: map<string, Value>, showFloat: real -> string): seq<string>
    requires forall k :: k in keys ==> k in vals
  {
    seq(|keys|, i requires 0 <= i < |keys| => EntryRepr(keys[i], vals[keys[i]], showFloat))
  }

  /** `sep.join(parts)` */
  function Join(parts: seq<string>, sep: string): string {
    if |parts| == 0 then ""
    else if |parts| == 1 then parts[0]
    else parts[0] + sep + Join(parts[1..], sep)
  }

  /** `str(message)` for a dict whose keys are strings. */
  function Encode(d: Dict, showFloat: real -> string): string
    requires d.Valid()
  {
    "{" + Join(EntryReprs(d.keys, d.vals, showFloat), ", ") + "}"
  }

  // ---------------------------------------------------------------------
  // Decoding: string_to_json
  // ---------------------------------------------------------------------

  /** `s.replace(c, '')` */
  function Without(s: string, c: char): (r: string)
    ensures c !in r
    ensures |r| <= |s|
    ensures forall x :: x in r ==> x in s
  {
    if s == [] then [] else (if s[0] == c then [] else [s[0]]) + Without(s[1..], c)
  }

  predicate StartsWith(s: string, prefix: string) {
    |prefix| <= |s| && s[..|prefix|] == prefix
  }

  /** `s.split(sep)`: cut at each occurrence of `sep`, scanning from the left. */
  function Split(s: string, sep: string): (parts: seq<string>)
    requires sep != []
    ensures |parts| >= 1
    decreases |s|
  {
    if |s| < |sep| then [s]
    else if StartsWith(s, sep) then [""] + Split(s[|sep|..], sep)
    else
      var rest := Split(s[1..], sep);
      [[s[0]] + rest[0]] + rest[1..]
  }

  function Unquote(s: string): string {
    Without(s, '\'')
  }

  function Unbrace(s: string): string {
    Without(Without(s, '{'), '}')
  }

  /** The `for` loop of `string_to_json`, from the dict built so far. */
  function DecodeEntries(acc: map<string, string>, pieces: seq<string>): Result<map<string, string>, Fault>
    decreases |pieces|
  {
    if pieces == [] then Success(acc)
    else
      var v := Split(pieces[0], ": ");
      if |v| < 2 then Failure(IndexError(pieces[0]))
      else DecodeEntries(acc[Unquote(v[0]) := Unquote(v[1])], pieces[1..])
  }

  /** `message[k]` on a decoded record: a `KeyError` when it has no such key. */
  function Get(m: map<string, string>, k: string): Result<string, Fault> {
    if k in m then Success(m[k]) else Failure(KeyError(k))
  }

  /** `string_to_json(body)` as a function of the (already UTF-8 decoded) body. */
  function Decode(text: string): Result<map<string, string>, Fault> {
    DecodeEntries(map[], Split(Unbrace(text), ", "))
  }

  /** `string_to_json`, step by step as the subscribers run it. */
  method StringToJson(body: string) returns (r: Result<map<string, string>, Fault>)
    ensures r == Decode(body)
  {
    var text := Without(body, '{');
    text := Without(text, '}');
    var values := Split(text, ", ");
    var message: map<string, string> := map[];
    for i := 0 to |values|
      invariant DecodeEntries(message, values[i..]) == DecodeEntries(map[], values)
    {
      var v := Split(values[i], ": ");
      if |v| < 2 {
        return Failure(IndexError(values[i]));
      }
      message := message[Unquote(v[0]) := Unquote(v[1])];
    }
    return Success(message);
  }

  // ---------------------------------------------------------------------
  // Properties of the text operations
  // ---------------------------------------------------------------------

  /** `s` holds no occurrence of the two-character separator `[a, b]`. */
  predicate NoPair(s: string, a: char, b: char) {
    forall i :: 0 <= i < |s| - 1 ==> !(s[i] == a && s[i + 1] == b)
  }

  lemma {:induction false} WithoutAbsent(s: string, c: char)
    requires c !in s
    ensures Without(s, c) == s
  {
    if s != [] {
      assert s[0] != c && c !in s[1..];
      WithoutAbsent(s[1..], c);
    }
  }

  lemma {:induction false} WithoutAppend(a: string, b: string, c: char)
    ensures Without(a + b, c) == Without(a, c) + Without(b, c)
  {
    if a != [] {
      assert (a + b)[1..] == a[1..] + b;
      WithoutAppend(a[1..], b, c);
    } else {
      assert a + b == b;
    }
  }

  /** Joining the pieces of a split with the same separator gives back the text. */
  lemma {:induction false} JoinSplit(s: string, sep: string)
    requires sep != []
    ensures Join(Split(s, sep), sep) == s
    decreases |s|
  {
    if |s| < |sep| {
    } else if StartsWith(s, sep) {
      JoinSplit(s[|sep|..], sep);
      JoinSplitCut(s, sep);
    } else {
      JoinSplit(s[1..], sep);
      JoinSplitStep(s, sep);
    }
  }

  /** The step of `JoinSplit` where the text starts with the separator. */
  lemma JoinSplitCut(s: string, sep: string)
    requires sep != [] && |s| >= |sep| && StartsWith(s, sep)
    requires Join(Split(s[|sep|..], sep), sep) == s[|sep|..]
    ensures Join(Split(s, sep), sep) == s
  {
    var rest := Split(s[|sep|..], sep);
    var parts := [""] + rest;
    assert Split(s, sep) == parts;
    assert parts[1..] == rest;
    assert Join(parts, sep) == "" + sep + Join(rest, sep);
    assert s == sep + s[|sep|..];
  }

  /** The step of `JoinSplit` where the first character stays in the first part. */
  lemma JoinSplitStep(s: string, sep: string)
    requires sep != [] && |s| >= |sep| && !StartsWith(s, sep)
    requires Join(Split(s[1..], sep), sep) == s[1..]
    ensures Join(Split(s, sep), sep) == s
  {
    var rest := Split(s[1..], sep);
    var parts := [[s[0]] + rest[0]] + rest[1..];
    assert Split(s, sep) == parts;
    JoinGrowsHead(rest, sep, s[0]);
    assert s == [s[0]] + s[1..];
  }

  /** Putting a character in front of the first part puts it in front of the joined text. */
  lemma JoinGrowsHead(parts: seq<string>, sep: string, c: char)
    requires |parts| >= 1
    ensures Join([[c] + parts[0]] + parts[1..], sep) == [c] + Join(parts, sep)
  {
    var grown := [[c] + parts[0]] + parts[1..];
    if |parts| > 1 {
      assert grown[1..] == parts[1..];
      var j := Join(parts[1..], sep);
      assert Join(grown, sep) == ([c] + parts[0]) + sep + j;
      assert Join(parts, sep) == parts[0] + sep + j;
    }
  }

  /** A text with no two-character separator in it is not cut. */
  lemma {:induction false} SplitWhole(p: string, sep: string)
    requires |sep| == 2 && NoPair(p, sep[0], sep[1])
    ensures Split(p, sep) == [p]
    decreases |p|
  {
    if |p| >= |sep| {
      assert !StartsWith(p, sep) by { assert p[..2][0] == p[0] && p[..2][1] == p[1]; }
      assert NoPair(p[1..], sep[0], sep[1]) by {
        forall i | 0 <= i < |p[1..]| - 1 ensures !(p[1..][i] == sep[0] && p[1..][i + 1] == sep[1]) {
          assert p[1..][i] == p[i + 1] && p[1..][i + 1] == p[i + 2];
        }
      }
      SplitWhole(p[1..], sep);
      assert [p[0]] + p[1..] == p;
    }
  }

  /**
   * A piece with no separator in it, followed by the separator, comes out as
   * the first part. The two characters of the separator differ, so an
   * occurrence cannot start in the piece and end in the separator.
   */
  lemma {:induction false} SplitHead(p: string, sep: string, rest: string)
    requires |sep| == 2 && sep[0] != sep[1] && NoPair(p, sep[0], sep[1])
    ensures Split(p + sep + rest, sep) == [p] + Split(rest, sep)
    decreases |p|
  {
    var s := p + sep + rest;
    if p == [] {
      assert s == sep + rest && s[..2] == sep && s[2..] == rest;
    } else {
      assert !StartsWith(s, sep) by {
        assert s[..2][0] == s[0] && s[..2][1] == s[1];
        if |p| == 1 { assert s[1] == sep[0]; } else { assert s[1] == p[1]; }
      }
      assert NoPair(p[1..], sep[0], sep[1]) by {
        forall i | 0 <= i < |p[1..]| - 1 ensures !(p[1..][i] == sep[0] && p[1..][i + 1] == sep[1]) {
          assert p[1..][i] == p[i + 1] && p[1..][i + 1] == p[i + 2];
        }
      }
      assert s[1..] == p[1..] + sep + rest;
      SplitHead(p[1..], sep, rest);
      assert [p[0]] + p[1..] == p;
    }
  }

  /** Splitting text joined from separator-free pieces gives back the pieces. */
  lemma {:induction false} SplitJoin(parts: seq<string>, sep: string)
    requires |sep| == 2 && sep[0] != sep[1] && |parts| >= 1
    requires forall i :: 0 <= i < |parts| ==> NoPair(parts[i], sep[0], sep[1])
    ensures Split(Join(parts, sep), sep) == parts
    decreases |parts|
  {
    if |parts| == 1 {
      SplitWhole(parts[0], sep);
    } else {
      SplitJoin(parts[1..], sep);
      SplitHead(parts[0], sep, Join(parts[1..], sep));
      assert [parts[0]] + parts[1..] == parts;
    }
  }

  /** A text is cut in two or more parts exactly when the separator occurs in it. */
  lemma {:induction false} SplitCutsIff(s: string, sep: string)
    requires |sep| == 2 && sep[0] != sep[1]
    ensures |Split(s, sep)| >= 2 <==> !NoPair(s, sep[0], sep[1])
    decreases |s|
  {
    if NoPair(s, sep[0], sep[1]) {
      SplitWhole(s, sep);
    } else if |s| >= 2 {
      var i :| 0 <= i < |s| - 1 && s[i] == sep[0] && s[i + 1] == sep[1];
      if StartsWith(s, sep) {
      } else {
        assert s[..2][0] == s[0] && s[..2][1] == s[1];
        assert i >= 1;
        assert s[1..][i - 1] == sep[0] && s[1..][i] == sep[1];
        SplitCutsIff(s[1..], sep);
      }
    }
  }

  // ---------------------------------------------------------------------
  // What the decoding loop computes
  // ---------------------------------------------------------------------

  /** The key the loop reads from a piece that has a ": ": the part before it, quotes deleted. */
  function PieceKey(piece: string): string
    requires |Split(piece, ": ")| >= 2
  {
    Unquote(Split(piece, ": ")[0])
  }

  /** The value the loop reads: the part after the first ": " and before any second one. */
  function PieceValue(piece: string): string
    requires |Split(piece, ": ")| >= 2
  {
    Unquote(Split(piece, ": ")[1])
  }

  /**
   * The loop raises `IndexError` exactly when some piece has no ": ", and it
   * does so on the first such piece.
   */
  lemma {:induction false} DecodeEntriesFails(acc: map<string, string>, pieces: seq<string>)
    ensures DecodeEntries(acc, pieces).Failure?
        <==> exists i :: 0 <= i < |pieces| && NoPair(pieces[i], ':', ' ')
    ensures DecodeEntries(acc, pieces).Failure? ==>
              exists i :: && 0 <= i < |pieces| && NoPair(pieces[i], ':', ' ')
                          && DecodeEntries(acc, pieces).error == IndexError(pieces[i])
                          && forall j :: 0 <= j < i ==> !NoPair(pieces[j], ':', ' ')
    decreases |pieces|
  {
    if pieces != [] {
      SplitCutsIff(pieces[0], ": ");
      var v := Split(pieces[0], ": ");
      if |v| >= 2 {
        DecodeEntriesFails(acc[Unquote(v[0]) := Unquote(v[1])], pieces[1..]);
        if DecodeEntries(acc, pieces).Failure? {
          var i :| && 0 <= i < |pieces[1..]| && NoPair(pieces[1..][i], ':', ' ')
                   && DecodeEntries(acc, pieces).error == IndexError(pieces[1..][i])
                   && forall j :: 0 <= j < i ==> !NoPair(pieces[1..][j], ':', ' ');
          assert forall j :: 0 <= j < i + 1 ==> !NoPair(pieces[j], ':', ' ') by {
            forall j | 0 <= j < i + 1 ensures !NoPair(pieces[j], ':', ' ') {
              if j > 0 { assert pieces[j] == pieces[1..][j - 1]; }
            }
          }
          assert pieces[i + 1] == pieces[1..][i];
        } else {
          forall i | 0 <= i < |pieces| ensures !NoPair(pieces[i], ':', ' ') {
            if i > 0 { assert pieces[i] == pieces[1..][i - 1]; }
          }
        }
      }
    }
  }

  /** The keys the loop reads from the pieces. */
  function PieceKeys(pieces: seq<string>): set<string>
    requires forall i :: 0 <= i < |pieces| ==> |Split(pieces[i], ": ")| >= 2
  {
    set i | 0 <= i < |pieces| :: PieceKey(pieces[i])
  }

  /**
   * When every piece has a ": ", the loop succeeds, and the keys of the
   * result are the keys it started with together with the key of every piece.
   */
  lemma {:induction false} DecodeEntriesDomain(acc: map<string, string>, pieces: seq<string>)
    requires forall i :: 0 <= i < |pieces| ==> |Split(pieces[i], ": ")| >= 2
    ensures DecodeEntries(acc, pieces).Success?
    ensures DecodeEntries(acc, pieces).value.Keys == acc.Keys + PieceKeys(pieces)
    decreases |pieces|
  {
    if pieces != [] {
      var p0 := pieces[0];
      var acc' := acc[PieceKey(p0) := PieceValue(p0)];
      var rest := pieces[1..];
      assert DecodeEntries(acc, pieces) == DecodeEntries(acc', rest);
      DecodeEntriesDomain(acc', rest);
      PieceKeysCons(pieces);
    }
  }

  lemma PieceKeysCons(pieces: seq<string>)
    requires pieces != [] && forall i :: 0 <= i < |pieces| ==> |Split(pieces[i], ": ")| >= 2
    ensures PieceKeys(pieces) == {PieceKey(pieces[0])} + PieceKeys(pieces[1..])
  {
    var rest := pieces[1..];
    forall k | k in PieceKeys(pieces) ensures k in {PieceKey(pieces[0])} + PieceKeys(rest) {
      var i :| 0 <= i < |pieces| && PieceKey(pieces[i]) == k;
      if i > 0 { assert pieces[i] == rest[i - 1]; }
    }
    forall k | k in PieceKeys(rest) ensures k in PieceKeys(pieces) {
      var i :| 0 <= i < |rest| && PieceKey(rest[i]) == k;
      assert rest[i] == pieces[i + 1];
    }
  }

  /** No piece after the `i`-th has the same key. */
  predicate LastOfKey(pieces: seq<string>, i: nat)
    requires i < |pieces| && forall i :: 0 <= i < |pieces| ==> |Split(pieces[i], ": ")| >= 2
  {
    forall j :: i < j < |pieces| ==> PieceKey(pieces[j]) != PieceKey(pieces[i])
  }

  /**
   * When every piece has a ": ", each piece's key is bound to the value of
   * the LAST piece with that key.
   */
  lemma {:induction false} DecodeEntriesLastWins(acc: map<string, string>, pieces: seq<string>)
    requires forall i :: 0 <= i < |pieces| ==> |Split(pieces[i], ": ")| >= 2
    ensures DecodeEntries(acc, pieces).Success?
    ensures var m := DecodeEntries(acc, pieces).value;
      forall i :: 0 <= i < |pieces| && LastOfKey(pieces, i) ==> PieceKey(pieces[i]) in m && m[PieceKey(pieces[i])] == PieceValue(pieces[i])
    decreases |pieces|
  {
    if pieces != [] {
      var p0 := pieces[0];
      var acc' := acc[PieceKey(p0) := PieceValue(p0)];
      var rest := pieces[1..];
      assert DecodeEntries(acc, pieces) == DecodeEntries(acc', rest);
      DecodeEntriesLastWins(acc', rest);
      var m := DecodeEntries(acc', rest).value;
      forall i | 0 <= i < |pieces| && LastOfKey(pieces, i)
        ensures PieceKey(pieces[i]) in m && m[PieceKey(pieces[i])] == PieceValue(pieces[i])
      {
        if i > 0 {
          LastOfKeyTail(pieces, i);
        } else {
          assert PieceKey(p0) !in PieceKeys(rest) by {
            forall j | 0 <= j < |rest| ensures PieceKey(rest[j]) != PieceKey(p0) {
              assert rest[j] == pieces[j + 1];
            }
          }
          DecodeEntriesKeepsOthers(acc', rest);
        }
      }
    }
  }

  lemma LastOfKeyTail(pieces: seq<string>, i: nat)
    requires 0 < i < |pieces| && forall i :: 0 <= i < |pieces| ==> |Split(pieces[i], ": ")| >= 2
    requires LastOfKey(pieces, i)
    ensures pieces[1..][i - 1] == pieces[i] && LastOfKey(pieces[1..], i - 1)
  {
    var rest := pieces[1..];
    forall j | i - 1 < j < |rest| ensures PieceKey(rest[j]) != PieceKey(rest[i - 1]) {
      assert rest[j] == pieces[j + 1];
    }
  }

  /** When every piece has a ": ", keys of no piece keep what they had before the loop. */
  lemma {:induction false} DecodeEntriesKeepsOthers(acc: map<string, string>, pieces: seq<string>)
    requires forall i :: 0 <= i < |pieces| ==> |Split(pieces[i], ": ")| >= 2
    ensures DecodeEntries(acc, pieces).Success?
    ensures var m := DecodeEntries(acc, pieces).value;
      forall k :: k in acc && k !in PieceKeys(pieces) ==> k in m && m[k] == acc[k]
    decreases |pieces|
  {
    DecodeEntriesDomain(acc, pieces);
    if pieces != [] {
      var p0 := pieces[0];
      var acc' := acc[PieceKey(p0) := PieceValue(p0)];
      var rest := pieces[1..];
      assert DecodeEntries(acc, pieces) == DecodeEntries(acc', rest);
      DecodeEntriesKeepsOthers(acc', rest);
      PieceKeysCons(pieces);
    }
  }

  /** `string_to_json` raises exactly when a ", "-separated piece of the brace-free body has no ": ". */
  lemma DecodeFailsIff(text: string)
    ensures Decode(text).Failure? <==> exists p :: p in Split(Unbrace(text), ", ") && NoPair(p, ':', ' ')
  {
    DecodeEntriesFails(map[], Split(Unbrace(text), ", "));
  }

  // ---------------------------------------------------------------------
  // Round trip
  // ---------------------------------------------------------------------

  /** Characters `repr` leaves as they are inside single quotes and the decoder gives no meaning to. */
  predicate PlainChar(c: char) {
    ' ' <= c <= '~' && c != '\\' && c != '\'' && c != '{' && c != '}'
  }

  /** Text the protocol carries intact: plain characters, and neither ", " nor ": " inside. */
  predicate CleanText(s: string) {
    && (forall i :: 0 <= i < |s| ==> PlainChar(s[i]))
    && NoPair(s, ',', ' ')
    && NoPair(s, ':', ' ')
  }

  predicate CleanValue(v: Value, showFloat: real -> string) {
    match v
    case Str(s) => CleanText(s)
    case Int(_) => true
    case Float(x) => CleanText(showFloat(x))
  }

  predicate CleanDict(d: Dict, showFloat: real -> string) {
    forall k :: k in d.vals ==> CleanText(k) && CleanValue(d.vals[k], showFloat)
  }

  /** What a subscriber should read from a record: every key, with its value as text. */
  function Texts(d: Dict, showFloat: real -> string): map<string, string> {
    map k | k in d.vals :: ValueText(d.vals[k], showFloat)
  }

  /** Plain text without a space holds neither ", " nor ": ". */
  lemma CleanWithoutSpace(s: string)
    requires forall i :: 0 <= i < |s| ==> PlainChar(s[i]) && s[i] != ' '
    ensures CleanText(s)
  {
  }

  /** Plain text without a comma or a colon holds neither ", " nor ": ". */
  lemma CleanWithoutMarks(s: string)
    requires forall i :: 0 <= i < |s| ==> PlainChar(s[i]) && s[i] != ',' && s[i] != ':'
    ensures CleanText(s)
  {
  }

  lemma TextsAt(d: Dict, k: string, showFloat: real -> string)
    requires k in d.vals
    ensures k in Texts(d, showFloat) && Texts(d, showFloat)[k] == ValueText(d.vals[k], showFloat)
  {
  }

  lemma NoPairAppend(a: string, b: string, x: char, y: char)
    requires NoPair(a, x, y) && NoPair(b, x, y)
    requires a != [] && b != [] ==> !(a[|a| - 1] == x && b[0] == y)
    ensures NoPair(a + b, x, y)
  {
    var s := a + b;
    forall i | 0 <= i < |s| - 1 ensures !(s[i] == x && s[i + 1] == y) {
      if i + 1 < |a| {
        assert s[i] == a[i] && s[i + 1] == a[i + 1];
      } else if i + 1 == |a| {
        assert s[i] == a[|a| - 1] && s[i + 1] == b[0];
      } else {
        assert s[i] == b[i - |a|] && s[i + 1] == b[i - |a| + 1];
      }
    }
  }

  /** The decimal text of an integer is clean: digits and perhaps a minus sign. */
  lemma IntTextClean(i: int)
    ensures CleanText(IntToString(i)) && '\'' !in IntToString(i)
  {
    var s := IntToString(i);
    assert forall k :: 0 <= k < |s| ==> IsDigit(s[k]) || s[k] == '-';
  }

  lemma QuoteFacts(s: string)
    requires CleanText(s)
    ensures NoPair(Quote(s), ',', ' ') && NoPair(Quote(s), ':', ' ')
    ensures '{' !in Quote(s) && '}' !in Quote(s)
    ensures Unquote(Quote(s)) == s
  {
    QuoteNoPair(s);
    QuoteNoBrace(s);
    UnquoteQuote(s);
  }

  lemma QuoteNoPair(s: string)
    requires NoPair(s, ',', ' ') && NoPair(s, ':', ' ')
    ensures NoPair(Quote(s), ',', ' ') && NoPair(Quote(s), ':', ' ')
  {
    var q := Quote(s);
    forall i | 0 <= i < |q| - 1 ensures !(q[i] == ',' && q[i + 1] == ' ') && !(q[i] == ':' && q[i + 1] == ' ') {
      if 1 <= i && i + 1 < |q| - 1 {
        assert q[i] == s[i - 1] && q[i + 1] == s[i];
      }
    }
  }

  lemma QuoteNoBrace(s: string)
    requires forall i :: 0 <= i < |s| ==> PlainChar(s[i])
    ensures '{' !in Quote(s) && '}' !in Quote(s)
  {
    var q := Quote(s);
    forall i | 0 <= i < |q| ensures q[i] != '{' && q[i] != '}' {
      if 1 <= i < |q| - 1 {
        assert q[i] == s[i - 1] && PlainChar(s[i - 1]);
      }
    }
  }

  lemma UnquoteQuote(s: string)
    requires forall i :: 0 <= i < |s| ==> PlainChar(s[i])
    ensures Unquote(Quote(s)) == s
  {
    assert '\'' !in s by {
      forall k | 0 <= k < |s| ensures s[k] != '\'' { assert PlainChar(s[k]); }
    }
    WithoutAppend("'" + s, "'", '\'');
    WithoutAppend("'", s, '\'');
    WithoutAbsent(s, '\'');
    assert Without("'", '\'') == [];
  }

  lemma ValueReprFacts(v: Value, showFloat: real -> string)
    requires CleanValue(v, showFloat)
    ensures NoPair(ValueRepr(v, showFloat), ',', ' ') && NoPair(ValueRepr(v, showFloat), ':', ' ')
    ensures '{' !in ValueRepr(v, showFloat) && '}' !in ValueRepr(v, showFloat)
    ensures Unquote(ValueRepr(v, showFloat)) == ValueText(v, showFloat)
  {
    match v
    case Str(s) =>
      QuoteFacts(s);
    case Int(i) =>
      IntTextClean(i);
      WithoutAbsent(IntToString(i), '\'');
      var t := IntToString(i);
      forall k | 0 <= k < |t| ensures t[k] != '{' && t[k] != '}' { assert PlainChar(t[k]); }
    case Float(x) =>
      var t := showFloat(x);
      forall k | 0 <= k < |t| ensures t[k] != '{' && t[k] != '}' && t[k] != '\'' { assert PlainChar(t[k]); }
      WithoutAbsent(t, '\'');
  }

  /** One encoded entry: brace-free, free of ", ", and cut by ": " into its key and value. */
  lemma EntryFacts(k: string, v: Value, showFloat: real -> string)
    requires CleanText(k) && CleanValue(v, showFloat)
    ensures '{' !in EntryRepr(k, v, showFloat) && '}' !in EntryRepr(k, v, showFloat)
    ensures NoPair(EntryRepr(k, v, showFloat), ',', ' ')
    ensures Split(EntryRepr(k, v, showFloat), ": ") == [Quote(k), ValueRepr(v, showFloat)]
  {
    QuoteFacts(k);
    ValueReprFacts(v, showFloat);
    var q, r := Quote(k), ValueRepr(v, showFloat);
    NoPairAppend(q, ": ", ',', ' ');
    NoPairAppend(q + ": ", r, ',', ' ');
    SplitHead(q, ": ", r);
    SplitWhole(r, ": ");
  }

  lemma {:induction false} JoinAvoids(parts: seq<string>, sep: string, c: char)
    requires c !in sep
    requires forall i :: 0 <= i < |parts| ==> c !in parts[i]
    ensures c !in Join(parts, sep)
    decreases |parts|
  {
    if |parts| > 1 {
      JoinAvoids(parts[1..], sep, c);
    }
  }

  /** The key-to-text map of the given keys. */
  function KeyTexts(keys: seq<string>, vals: map<string, Value>, showFloat: real -> string): map<string, string>
    requires forall k :: k in keys ==> k in vals
  {
    map k | k in keys :: ValueText(vals[k], showFloat)
  }

  lemma KeyTextsCons(acc: map<string, string>, keys: seq<string>, vals: map<string, Value>, showFloat: real -> string)
    requires keys != [] && forall k :: k in keys ==> k in vals
    ensures acc[keys[0] := ValueText(vals[keys[0]], showFloat)] + KeyTexts(keys[1..], vals, showFloat)
         == acc + KeyTexts(keys, vals, showFloat)
  {
    assert forall k :: k in keys <==> k == keys[0] || k in keys[1..];
  }

  /** The decoding loop, run over encoded entries, rebuilds the key-to-text map. */
  lemma {:induction false} DecodeEntryReprs(acc: map<string, string>, keys: seq<string>, vals: map<string, Value>, showFloat: real -> string)
    requires forall k :: k in keys ==> k in vals && CleanText(k) && CleanValue(vals[k], showFloat)
    ensures DecodeEntries(acc, EntryReprs(keys, vals, showFloat)) == Success(acc + KeyTexts(keys, vals, showFloat))
    decreases |keys|
  {
    if keys == [] {
      assert KeyTexts(keys, vals, showFloat) == map[];
      assert acc + map[] == acc;
    } else {
      var k0 := keys[0];
      DecodeFirstEntry(acc, keys, vals, showFloat);
      DecodeEntryReprs(acc[k0 := ValueText(vals[k0], showFloat)], keys[1..], vals, showFloat);
      KeyTextsCons(acc, keys, vals, showFloat);
    }
  }

  /** The loop reads the first encoded entry back as its key and value text. */
  lemma DecodeFirstEntry(acc: map<string, string>, keys: seq<string>, vals: map<string, Value>, showFloat: real -> string)
    requires keys != []
    requires forall k :: k in keys ==> k in vals && CleanText(k) && CleanValue(vals[k], showFloat)
    ensures DecodeEntries(acc, EntryReprs(keys, vals, showFloat))
         == DecodeEntries(acc[keys[0] := ValueText(vals[keys[0]], showFloat)], EntryReprs(keys[1..], vals, showFloat))
  {
    var k0 := keys[0];
    EntryReprsTail(keys, vals, showFloat);
    assert k0 in keys;
    var v0 := vals[k0];
    assert CleanEntry(k0, v0, showFloat);
    DecodeEntryStep(acc, k0, v0, showFloat, EntryReprs(keys[1..], vals, showFloat));
  }

  predicate CleanEntry(k: string, v: Value, showFloat: real -> string) {
    CleanText(k) && CleanValue(v, showFloat)
  }

  lemma EntryReprsTail(keys: seq<string>, vals: map<string, Value>, showFloat: real -> string)
    requires keys != [] && forall k :: k in keys ==> k in vals
    ensures EntryReprs(keys, vals, showFloat) == [EntryRepr(keys[0], vals[keys[0]], showFloat)] + EntryReprs(keys[1..], vals, showFloat)
  {
    var tail := keys[1..];
    assert forall k :: k in tail ==> k in keys;
    var whole := EntryReprs(keys, vals, showFloat);
    var rest := EntryReprs(tail, vals, showFloat);
    var expected := [EntryRepr(keys[0], vals[keys[0]], showFloat)] + rest;
    assert |whole| == |expected|;
    forall i | 0 <= i < |whole| ensures whole[i] == expected[i] {
      if i > 0 {
        assert tail[i - 1] == keys[i];
      }
    }
  }

  /** One step of the loop over an encoded entry. */
  lemma DecodeEntryStep(acc: map<string, string>, k: string, v: Value, showFloat: real -> string, rest: seq<string>)
    requires CleanEntry(k, v, showFloat)
    ensures DecodeEntries(acc, [EntryRepr(k, v, showFloat)] + rest) == DecodeEntries(acc[k := ValueText(v, showFloat)], rest)
  {
    var parts := [EntryRepr(k, v, showFloat)] + rest;
    assert parts[0] == EntryRepr(k, v, showFloat) && parts[1..] == rest;
    EntrySplit(k, v, showFloat);
  }

  /** An encoded entry splits at its ": " into the quoted key and the value, which unquote back. */
  lemma EntrySplit(k: string, v: Value, showFloat: real -> string)
    requires CleanText(k) && CleanValue(v, showFloat)
    ensures Split(EntryRepr(k, v, showFloat), ": ") == [Quote(k), ValueRepr(v, showFloat)]
    ensures Unquote(Quote(k)) == k && Unquote(ValueRepr(v, showFloat)) == ValueText(v, showFloat)
  {
    EntryFacts(k, v, showFloat);
    QuoteFacts(k);
    ValueReprFacts(v, showFloat);
  }

  /** Deleting the braces of `{body}` leaves `body` when `body` has none. */
  lemma UnbraceWrapped(body: string)
    requires '{' !in body && '}' !in body
    ensures Unbrace("{" + body + "}") == body
  {
    assert "{"[1..] == [] && "}"[1..] == [];
    assert Without("{", '{') == [];
    assert Without("}", '}') == [];
    WithoutAbsent(body, '{');
    WithoutAbsent(body, '}');
    WithoutAbsent("}", '{');
    calc {
      Without("{" + body + "}", '{');
      { WithoutAppend("{" + body, "}", '{'); }
      Without("{" + body, '{') + Without("}", '{');
      { WithoutAppend("{", body, '{'); }
      body + "}";
    }
    calc {
      Without(body + "}", '}');
      { WithoutAppend(body, "}", '}'); }
      body + [];
    }
    assert body + [] == body;
  }

  /**
   * Round trip: the subscribers' decoder applied to `str(message)` gives
   * every key of the record with its value as text, provided the record is
   * not empty and no key or value holds a brace, a quote, a backslash, a
   * non-printable character, ", " or ": ".
   */
  lemma RoundTrip(d: Dict, showFloat: real -> string)
    requires d.Valid() && d.keys != [] && CleanDict(d, showFloat)
    ensures Decode(Encode(d, showFloat)) == Success(Texts(d, showFloat))
  {
    var parts := EntryReprs(d.keys, d.vals, showFloat);
    forall i | 0 <= i < |parts|
      ensures '{' !in parts[i] && '}' !in parts[i] && NoPair(parts[i], ',', ' ')
    {
      EntryFacts(d.keys[i], d.vals[d.keys[i]], showFloat);
    }
    var body := Join(parts, ", ");
    JoinAvoids(parts, ", ", '{');
    JoinAvoids(parts, ", ", '}');
    UnbraceWrapped(body);
    SplitJoin(parts, ", ");
    DecodeEntryReprs(map[], d.keys, d.vals, showFloat);
    assert map[] + KeyTexts(d.keys, d.vals, showFloat) == Texts(d, showFloat);
  }

  /** `str({})` is "{}", and decoding it raises: its only piece has no ": ". */
  lemma EmptyRecordFails(showFloat: real -> string)
    ensures Decode(Encode(EmptyDict, showFloat)) == Failure(IndexError(""))
  {
    assert Encode(EmptyDict, showFloat) == "{}";
    assert Without("{}", '{') == "}";
    assert Without("}", '}') == "";
    assert Split("", ": ") == [""];
  }
}
