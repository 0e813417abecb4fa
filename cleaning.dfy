/**
 * `_clean_repository_data` from api.py: every top-level string value of
 * every record has its control characters turned into spaces, its
 * whitespace runs collapsed to one space, and its ends stripped.
 */
module Cleaning {
  import opened Text

  /** The class `[\x00-\x1f\x7f-\x9f]`. */
  predicate IsControl(c: char) {
    c as int <= 0x1F || (0x7F <= c as int <= 0x9F)
  }

  /** `re.sub(r"[\x00-\x1f\x7f-\x9f]", " ", s)` */
  function ReplaceControl(s: string): (r: string)
    ensures |r| == |s|
    ensures forall i :: 0 <= i < |s| ==> r[i] == if IsControl(s[i]) then ' ' else s[i]
  {
    seq(|s|, i requires 0 <= i < |s| => if IsControl(s[i]) then ' ' else s[i])
  }

  /** `re.sub(r"\s+", " ", s)`: each maximal run of whitespace becomes one space. */
  function Collapse(s: string): (r: string)
    ensures forall i :: 0 <= i < |r| ==> r[i] == ' ' || (!IsSpace(r[i]) && r[i] in s)
    ensures forall i :: 0 <= i < |r| - 1 ==> !(IsSpace(r[i]) && IsSpace(r[i + 1]))
    ensures (r == []) == (s == [])
    ensures r != [] ==> (IsSpace(r[0]) <==> IsSpace(s[0]))
    decreases |s|
  {
    if s == [] then []
    else if IsSpace(s[0]) then
      var rest := StripLeft(s);
      var tail := Collapse(rest);
      assert forall c :: c in rest ==> c in s;
      [' '] + tail
    else
      var tail := Collapse(s[1..]);
      assert forall c :: c in s[1..] ==> c in s;
      [s[0]] + tail
  }

  /**
   * The same substitution read left to right: a whitespace character becomes
   * a space unless whitespace came just before it (`afterSpace`), in which
   * case it is dropped; every other character is kept.
   */
  function Squeeze(s: string, afterSpace: bool): string
    decreases |s|
  {
    if s == [] then []
    else if IsSpace(s[0]) then (if afterSpace then [] else [' ']) + Squeeze(s[1..], true)
    else [s[0]] + Squeeze(s[1..], false)
  }

  /** Inside a run, the rest of the run is dropped. */
  lemma {:induction false} SqueezeSkipsRun(s: string)
    ensures Squeeze(s, true) == Squeeze(StripLeft(s), false)
    decreases |s|
  {
    if s != [] && IsSpace(s[0]) {
      SqueezeSkipsRun(s[1..]);
    }
  }

  /**
   * `Collapse` agrees with the left-to-right reading: each maximal run of
   * whitespace becomes exactly one space, and everything else is kept in place.
   */
  lemma {:induction false} CollapseIsSqueeze(s: string)
    ensures Collapse(s) == Squeeze(s, false)
    decreases |s|
  {
    if s != [] {
      if IsSpace(s[0]) {
        assert StripLeft(s) == StripLeft(s[1..]);
        SqueezeSkipsRun(s[1..]);
        CollapseIsSqueeze(StripLeft(s));
      } else {
        CollapseIsSqueeze(s[1..]);
      }
    }
  }

  /** The characters of `s` that are not whitespace, in order. */
  function NonSpace(s: string): string
    decreases |s|
  {
    if s == [] then [] else (if IsSpace(s[0]) then [] else [s[0]]) + NonSpace(s[1..])
  }

  lemma {:induction false} SqueezeKeepsText(s: string, afterSpace: bool)
    ensures NonSpace(Squeeze(s, afterSpace)) == NonSpace(s)
    decreases |s|
  {
    if s != [] {
      var tail := Squeeze(s[1..], IsSpace(s[0]));
      SqueezeKeepsText(s[1..], IsSpace(s[0]));
      if IsSpace(s[0]) && afterSpace {
        assert Squeeze(s, afterSpace) == tail;
      } else {
        var head := if IsSpace(s[0]) then ' ' else s[0];
        assert Squeeze(s, afterSpace) == [head] + tail;
        assert ([head] + tail)[1..] == tail;
      }
    }
  }

  /** Collapsing keeps every non-whitespace character, in order, and adds none. */
  lemma {:induction false} CollapseKeepsText(s: string)
    ensures NonSpace(Collapse(s)) == NonSpace(s)
  {
    CollapseIsSqueeze(s);
    SqueezeKeepsText(s, false);
  }

  /** What the cleaner does to one string value. */
  function CleanString(s: string): string {
    Strip(Collapse(ReplaceControl(s)))
  }

  /** The shape of a cleaned string. */
  predicate Tidy(s: string) {
    && (forall i :: 0 <= i < |s| ==> !IsControl(s[i]))
    && (forall i :: 0 <= i < |s| ==> IsSpace(s[i]) ==> s[i] == ' ')
    && (forall i :: 0 <= i < |s| - 1 ==> !(IsSpace(s[i]) && IsSpace(s[i + 1])))
    && (s == [] || (!IsSpace(s[0]) && !IsSpace(s[|s| - 1])))
  }

  /** A slice of a collapsed, control-free string keeps both properties. */
  lemma {:induction false} SliceKeeps(s: string, lo: nat, hi: nat)
    requires lo <= hi <= |s|
    requires forall i :: 0 <= i < |s| ==> !IsControl(s[i]) && (IsSpace(s[i]) ==> s[i] == ' ')
    requires forall i :: 0 <= i < |s| - 1 ==> !(IsSpace(s[i]) && IsSpace(s[i + 1]))
    ensures forall i :: 0 <= i < hi - lo ==> !IsControl(s[lo..hi][i]) && (IsSpace(s[lo..hi][i]) ==> s[lo..hi][i] == ' ')
    ensures forall i :: 0 <= i < hi - lo - 1 ==> !(IsSpace(s[lo..hi][i]) && IsSpace(s[lo..hi][i + 1]))
  {
    forall i | 0 <= i < hi - lo - 1
      ensures !(IsSpace(s[lo..hi][i]) && IsSpace(s[lo..hi][i + 1]))
    {
      assert s[lo..hi][i] == s[lo + i] && s[lo..hi][i + 1] == s[lo + i + 1];
    }
  }

  /** Collapsing a control-free string leaves only single spaces as whitespace. */
  lemma {:induction false} CollapseReplaced(s: string)
    ensures forall i :: 0 <= i < |Collapse(ReplaceControl(s))| ==>
      !IsControl(Collapse(ReplaceControl(s))[i]) &&
      (IsSpace(Collapse(ReplaceControl(s))[i]) ==> Collapse(ReplaceControl(s))[i] == ' ')
  {
    var replaced := ReplaceControl(s);
    var collapsed := Collapse(replaced);
    forall i | 0 <= i < |collapsed|
      ensures !IsControl(collapsed[i]) && (IsSpace(collapsed[i]) ==> collapsed[i] == ' ')
    {
      if collapsed[i] != ' ' {
        var j :| 0 <= j < |replaced| && replaced[j] == collapsed[i];
      }
    }
  }

  /** Stripping a string of single, separated spaces makes it tidy. */
  lemma {:induction false} StripSpaced(t: string)
    requires forall i :: 0 <= i < |t| ==> !IsControl(t[i]) && (IsSpace(t[i]) ==> t[i] == ' ')
    requires forall i :: 0 <= i < |t| - 1 ==> !(IsSpace(t[i]) && IsSpace(t[i + 1]))
    ensures Tidy(Strip(t))
  {
    var left := StripLeft(t);
    SliceKeeps(t, |t| - |left|, |t|);
    assert left == t[|t| - |left|..|t|];
    var r := StripRight(left);
    SliceKeeps(left, 0, |r|);
    assert r == left[0..|r|];
  }

  /**
   * A cleaned string has no control characters, no whitespace other than
   * single spaces, no two whitespace characters in a row, and no whitespace
   * at either end.
   */
  lemma {:induction false} CleanStringTidy(s: string)
    ensures Tidy(CleanString(s))
  {
    CollapseReplaced(s);
    StripSpaced(Collapse(ReplaceControl(s)));
  }

  /** A string of single, separated spaces collapses to itself. */
  lemma {:induction false} CollapseSpaced(s: string)
    requires forall i :: 0 <= i < |s| ==> IsSpace(s[i]) ==> s[i] == ' '
    requires forall i :: 0 <= i < |s| - 1 ==> !(IsSpace(s[i]) && IsSpace(s[i + 1]))
    ensures Collapse(s) == s
    decreases |s|
  {
    if s != [] {
      var tail := s[1..];
      assert s == [s[0]] + tail;
      assert forall i :: 0 <= i < |tail| ==> tail[i] == s[i + 1];
      if IsSpace(s[0]) {
        StripLeftOfClean(tail);
        assert StripLeft(s) == tail;
      }
      CollapseSpaced(tail);
      assert Collapse(s) == [s[0]] + Collapse(tail);
    }
  }

  /** Tidy strings are left as they are. */
  lemma {:induction false} TidyIsClean(s: string)
    requires Tidy(s)
    ensures CleanString(s) == s
  {
    assert ReplaceControl(s) == s;
    CollapseSpaced(s);
    StripLeftOfClean(s);
    StripRightOfClean(s);
  }

  /** Cleaning twice is cleaning once. */
  lemma {:induction false} CleanStringIdempotent(s: string)
    ensures CleanString(CleanString(s)) == CleanString(s)
  {
    CleanStringTidy(s);
    TidyIsClean(CleanString(s));
  }

  // ---------------------------------------------------------------- records

  /** A decoded JSON value. */
  datatype RawValue =
    | Str(text: string)
    | Int(number: int)
    | Bool(flag: bool)
    | Null
    | List(items: seq<RawValue>)
    | Dict(entries: map<string, RawValue>)

  type RawRecord = map<string, RawValue>

  /** Only top-level strings are cleaned; numbers, flags, lists and nested dicts pass through. */
  function CleanValue(v: RawValue): RawValue {
    if v.Str? then Str(CleanString(v.text)) else v
  }

  function CleanRecord(rec: RawRecord): RawRecord {
    map k | k in rec :: CleanValue(rec[k])
  }

  /**
   * A cleaned record has the same keys, the same non-string values, and tidy
   * string values; cleaning it again changes nothing.
   */
  lemma {:induction false} CleanRecordFacts(rec: RawRecord)
    ensures CleanRecord(rec).Keys == rec.Keys
    ensures forall k :: k in rec && !rec[k].Str? ==> CleanRecord(rec)[k] == rec[k]
    ensures forall k :: k in rec && rec[k].Str? ==> CleanRecord(rec)[k].Str? && Tidy(CleanRecord(rec)[k].text)
    ensures CleanRecord(CleanRecord(rec)) == CleanRecord(rec)
  {
    forall k | k in rec && rec[k].Str?
      ensures Tidy(CleanRecord(rec)[k].text)
      ensures CleanValue(CleanValue(rec[k])) == CleanValue(rec[k])
    {
      CleanStringTidy(rec[k].text);
      CleanStringIdempotent(rec[k].text);
    }
  }

  /** The cleaned list: one cleaned record per input record, in order. */
  function CleanAll(data: seq<RawRecord>): (r: seq<RawRecord>)
    ensures |r| == |data|
    ensures forall i :: 0 <= i < |data| ==> r[i] == CleanRecord(data[i])
  {
    seq(|data|, i requires 0 <= i < |data| => CleanRecord(data[i]))
  }

  /**
   * Cleaning an already cleaned list changes nothing, so data cached after
   * cleaning comes back from the second cleaning unchanged.
   */
  lemma {:induction false} CleanAllIdempotent(data: seq<RawRecord>)
    ensures CleanAll(CleanAll(data)) == CleanAll(data)
  {
    forall i | 0 <= i < |data| ensures CleanRecord(CleanRecord(data[i])) == CleanRecord(data[i]) {
      CleanRecordFacts(data[i]);
    }
  }

  /**
   * The nested loops of `_clean_repository_data`: one cleaned dict per
   * record, built key by key.
   */
  method CleanRepositoryData(data: seq<RawRecord>) returns (cleaned: seq<RawRecord>)
    ensures cleaned == CleanAll(data)
  {
    cleaned := [];
    var n := 0;
    while n < |data|
      invariant 0 <= n <= |data|
      invariant |cleaned| == n
      invariant forall i :: 0 <= i < n ==> cleaned[i] == CleanRecord(data[i])
    {
      var repo := data[n];
      var cleanedRepo: RawRecord := map[];
      var pending := repo.Keys;
      while pending != {}
        invariant pending <= repo.Keys
        invariant cleanedRepo.Keys == repo.Keys - pending
        invariant forall k :: k in cleanedRepo ==> cleanedRepo[k] == CleanValue(repo[k])
        decreases pending
      {
        var key :| key in pending;
        var value := repo[key];
        if value.Str? {
          cleanedRepo := cleanedRepo[key := Str(CleanString(value.text))];
        } else {
          cleanedRepo := cleanedRepo[key := value];
        }
        pending := pending - {key};
      }
      assert cleanedRepo == CleanRecord(repo);
      cleaned := cleaned + [cleanedRepo];
      n := n + 1;
    }
  }
}
