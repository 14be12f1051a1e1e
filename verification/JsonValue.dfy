/** JSON values as the browser code sees them. Printing and parsing text are not modelled. */
module JsonValue {
  import opened Util

  datatype Json =
    | Null
    | Bool(b: bool)
    | Num(n: real)
    | Str(s: string)
    | Arr(items: seq<Json>)
    | Obj(fields: map<string, Json>)

  /** `value[key]` on an object; None stands for undefined. */
  function Field(value: Json, key: string): Option<Json> {
    if value.Obj? && key in value.fields then Some(value.fields[key]) else None
  }

  /** JavaScript white space and line terminators, as `trim` removes them. */
  predicate JsSpace(c: char) {
    c in "\t\n\r \U{000B}\U{000C}\U{00A0}\U{1680}\U{2028}\U{2029}\U{202F}\U{205F}\U{3000}\U{FEFF}"
    || '\U{2000}' <= c <= '\U{200A}'
  }

  function TrimStart(s: string, space: char -> bool): string {
    if s != "" && space(s[0]) then TrimStart(s[1..], space) else s
  }

  function TrimEnd(s: string, space: char -> bool): string {
    if s != "" && space(s[|s| - 1]) then TrimEnd(s[..|s| - 1], space) else s
  }

  function Trim(s: string, space: char -> bool): string {
    TrimEnd(TrimStart(s, space), space)
  }

  lemma {:induction false} TrimEndTwice(s: string, space: char -> bool)
    ensures TrimEnd(TrimEnd(s, space), space) == TrimEnd(s, space)
    ensures TrimEnd(s, space) != "" ==> s != "" && TrimEnd(s, space)[0] == s[0]
  {
    if s != "" && space(s[|s| - 1]) {
      TrimEndTwice(s[..|s| - 1], space);
    }
  }

  lemma {:induction false} TrimStartSolid(s: string, space: char -> bool)
    ensures TrimStart(s, space) == "" || !space(TrimStart(s, space)[0])
  {
    if s != "" && space(s[0]) {
      TrimStartSolid(s[1..], space);
    }
  }

  lemma TrimTwice(s: string, space: char -> bool)
    ensures Trim(Trim(s, space), space) == Trim(s, space)
  {
    TrimStartSolid(s, space);
    TrimEndTwice(TrimStart(s, space), space);
  }

  /** Trimming takes white space off both ends and stops at something else. */
  lemma {:induction false} TrimmedStart(s: string, space: char -> bool) returns (n: nat)
    ensures n <= |s| && TrimStart(s, space) == s[n..] && forall i :: 0 <= i < n ==> space(s[i])
  {
    n := 0;
    if s != "" && space(s[0]) {
      var m := TrimmedStart(s[1..], space);
      assert forall i :: 0 < i <= m ==> s[i] == s[1..][i - 1];
      n := m + 1;
    }
  }

  lemma {:induction false} TrimmedEnd(s: string, space: char -> bool) returns (n: nat)
    ensures n <= |s| && TrimEnd(s, space) == s[..n] && forall i :: n <= i < |s| ==> space(s[i])
    ensures n > 0 ==> !space(s[n - 1])
  {
    n := |s|;
    if s != "" && space(s[|s| - 1]) {
      n := TrimmedEnd(s[..|s| - 1], space);
    }
  }

  /** What trimming leaves: the text between the outermost characters that are not white space. */
  lemma TrimIsMiddle(s: string, space: char -> bool) returns (from: nat, to: nat)
    ensures from <= to <= |s| && Trim(s, space) == s[from..to]
    ensures forall i :: 0 <= i < from || to <= i < |s| ==> space(s[i])
    ensures from < to ==> !space(s[from]) && !space(s[to - 1])
  {
    from := TrimmedStart(s, space);
    TrimStartSolid(s, space);
    var n := TrimmedEnd(s[from..], space);
    to := from + n;
    assert forall i :: to <= i < |s| ==> s[i] == s[from..][i - from];
  }

  lemma TrimsToNothing(s: string, space: char -> bool)
    ensures Trim(s, space) != "" <==> exists i :: 0 <= i < |s| && !space(s[i])
  {
    var from, to := TrimIsMiddle(s, space);
  }

  /** White space on ordinary text: blanks, tabs and line ends, and no printable ASCII character. */
  lemma OrdinarySpace(c: char)
    requires c < '\U{0080}'
    ensures JsSpace(c) <==> c == ' ' || '\t' <= c <= '\r'
  {
  }
}
