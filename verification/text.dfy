/**
 The few .NET string operations the modelled code relies on, over `string`
 (`seq<char>`): `String.Replace(char, char)`, `String.Format` with a single
 `{0}` argument, `String.Split` on one separator (with and without
 `RemoveEmptyEntries`), and the `Join` that undoes a split.
 */
module Text {

  /** `s.Replace(from, to)`: every occurrence of `from` becomes `to`. */
  function ReplaceChar(s: string, from: char, to: char): (r: string)
    ensures |r| == |s|
    ensures forall i :: 0 <= i < |s| ==> r[i] == (if s[i] == from then to else s[i])
    ensures from != to ==> from !in r
  {
    if |s| == 0 then ""
    else [if s[0] == from then to else s[0]] + ReplaceChar(s[1..], from, to)
  }

  /** The only placeholder the modelled format strings use. */
  const Placeholder: string := "{0}"

  /** No character of `s` opens or closes a format item. */
  predicate NoFormatItem(s: string)
  {
    forall i :: 0 <= i < |s| ==> s[i] != '{' && s[i] != '}'
  }

  /**
   `string.Format(template, arg)` for a template whose only format item is
   `{0}`: each `{0}` is replaced by `arg`, every other character is kept.
   The argument is inserted verbatim and never rescanned.
   */
  function Format(template: string, arg: string): (r: string)
    ensures NoFormatItem(template) ==> r == template
    decreases |template|
  {
    if |template| == 0 then ""
    else if Placeholder <= template then
      assert template[0] == '{';
      arg + Format(template[|Placeholder|..], arg)
    else [template[0]] + Format(template[1..], arg)
  }

  /**
   `s.Split(sep)` as .NET computes it: scanning left to right, each
   occurrence of `sep` ends one part and starts the next, so there is always
   at least one part and `""` splits into `[""]`.
   */
  function Split(s: string, sep: string): (r: seq<string>)
    requires |sep| > 0
    ensures |r| >= 1
    ensures (forall i :: 0 <= i < |s| ==> s[i] != sep[0]) ==> r == [s]
    decreases |s|
  {
    if |s| == 0 then [""]
    else if sep <= s then [""] + Split(s[|sep|..], sep)
    else
      var rest := Split(s[1..], sep);
      assert (forall i :: 0 <= i < |s| ==> s[i] != sep[0]) ==> rest == [s[1..]] by {
        if forall i :: 0 <= i < |s| ==> s[i] != sep[0] {
          assert forall j :: 0 <= j < |s[1..]| ==> s[1..][j] == s[j + 1];
        }
      }
      assert s == [s[0]] + s[1..];
      [[s[0]] + rest[0]] + rest[1..]
  }

  /** The parts written one after another with `sep` between neighbours. */
  function Join(parts: seq<string>, sep: string): string
  {
    if |parts| == 0 then ""
    else if |parts| == 1 then parts[0]
    else parts[0] + sep + Join(parts[1..], sep)
  }

  /** `StringSplitOptions.RemoveEmptyEntries`: drop the empty parts, keep the order of the rest. */
  function RemoveEmpty(parts: seq<string>): (r: seq<string>)
    ensures forall i :: 0 <= i < |r| ==> r[i] != ""
    ensures forall p :: p in r ==> p in parts
    ensures forall i :: 0 <= i < |parts| && parts[i] != "" ==> parts[i] in r
    ensures (forall i :: 0 <= i < |parts| ==> parts[i] != "") ==> r == parts
  {
    if |parts| == 0 then []
    else if parts[0] == "" then RemoveEmpty(parts[1..])
    else [parts[0]] + RemoveEmpty(parts[1..])
  }

  /** Prefixing a character to the first part prefixes it to the joined text. */
  lemma {:induction false} JoinExtendFirst(c: char, parts: seq<string>, sep: string)
    requires |parts| >= 1
    ensures Join([[c] + parts[0]] + parts[1..], sep) == [c] + Join(parts, sep)
  {
    var q := [[c] + parts[0]] + parts[1..];
    assert q[1..] == parts[1..];
  }

  /** An empty first part contributes only the separator that follows it. */
  lemma JoinLeadingEmpty(rest: seq<string>, sep: string)
    requires |rest| >= 1
    ensures Join([""] + rest, sep) == sep + Join(rest, sep)
  {
    assert ([""] + rest)[1..] == rest;
  }

  /** Splitting loses nothing: joining the parts with the separator gives the text back. */
  lemma {:induction false} JoinSplit(s: string, sep: string)
    requires |sep| > 0
    ensures Join(Split(s, sep), sep) == s
    decreases |s|
  {
    if |s| == 0 {
    } else if sep <= s {
      var rest := Split(s[|sep|..], sep);
      JoinSplit(s[|sep|..], sep);
      JoinLeadingEmpty(rest, sep);
      assert s == sep + s[|sep|..];
    } else {
      var rest := Split(s[1..], sep);
      JoinSplit(s[1..], sep);
      JoinExtendFirst(s[0], rest, sep);
      assert s == [s[0]] + s[1..];
    }
  }

  /**
   A prefix free of the separator's first character cannot hold a separator,
   so it simply extends the first part of whatever follows it.
   */
  lemma {:induction false} SplitClearPrefix(p: string, t: string, sep: string)
    requires |sep| > 0
    requires sep[0] !in p
    ensures Split(p + t, sep) == [p + Split(t, sep)[0]] + Split(t, sep)[1..]
    decreases |p|
  {
    if |p| == 0 {
      var r := Split(t, sep);
      assert p + t == t;
      assert p + r[0] == r[0];
      assert [r[0]] + r[1..] == r;
    } else {
      assert (p + t)[0] == p[0];
      assert !(sep <= p + t);
      assert (p + t)[1..] == p[1..] + t;
      SplitClearPrefix(p[1..], t, sep);
      assert [p[0]] + (p[1..] + Split(t, sep)[0]) == p + Split(t, sep)[0];
    }
  }

  /**
   Splitting undoes joining when no part contains the separator's first
   character (and there is at least one part: `Join([])` and `Join([""])`
   are both empty).
   */
  lemma {:induction false} SplitJoin(parts: seq<string>, sep: string)
    requires |sep| > 0
    requires |parts| >= 1
    requires forall i :: 0 <= i < |parts| ==> sep[0] !in parts[i]
    ensures Split(Join(parts, sep), sep) == parts
  {
    if |parts| == 1 {
      SplitClearPrefix(parts[0], "", sep);
      assert parts[0] + "" == parts[0];
    } else {
      var tail := Join(parts[1..], sep);
      SplitJoin(parts[1..], sep);
      assert Split(sep + tail, sep) == [""] + Split(tail, sep) by {
        assert sep <= sep + tail;
        assert (sep + tail)[|sep|..] == tail;
      }
      SplitClearPrefix(parts[0], sep + tail, sep);
      assert Join(parts, sep) == parts[0] + (sep + tail);
      var r := [""] + Split(tail, sep);
      assert r[0] == "" && r[1..] == parts[1..];
      assert parts[0] + "" == parts[0];
      assert parts == [parts[0]] + parts[1..];
    }
  }

  /** Dropping empty parts distributes over appending one more part. */
  lemma {:induction false} RemoveEmptyAppend(parts: seq<string>, last: string)
    ensures RemoveEmpty(parts + [last]) == RemoveEmpty(parts) + (if last == "" then [] else [last])
  {
    if |parts| == 0 {
      assert parts + [last] == [last];
    } else {
      assert (parts + [last])[1..] == parts[1..] + [last];
      RemoveEmptyAppend(parts[1..], last);
    }
  }

  /** Joining with one more part appends the separator and that part. */
  lemma {:induction false} JoinAppend(parts: seq<string>, last: string, sep: string)
    requires |parts| >= 1
    ensures Join(parts + [last], sep) == Join(parts, sep) + sep + last
  {
    if |parts| == 1 {
      assert parts + [last] == [parts[0], last];
    } else {
      assert (parts + [last])[1..] == parts[1..] + [last];
      JoinAppend(parts[1..], last, sep);
    }
  }

  /** Joining at least one non-empty part never gives the empty string. */
  lemma {:induction false} JoinNonEmpty(parts: seq<string>, sep: string)
    requires |parts| >= 1
    requires forall i :: 0 <= i < |parts| ==> parts[i] != ""
    ensures Join(parts, sep) != ""
  {
    if |parts| > 1 {
      assert |Join(parts, sep)| >= |parts[0]|;
    }
  }

  /** A template that starts with the placeholder and has no other format item. */
  lemma FormatLeadingPlaceholder(rest: string, arg: string)
    requires NoFormatItem(rest)
    ensures Format(Placeholder + rest, arg) == arg + rest
  {
    assert (Placeholder + rest)[|Placeholder|..] == rest;
  }
}
