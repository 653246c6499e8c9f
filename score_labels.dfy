/** The browser client's score labels: a score key such as
    `mileage_consistency` is split at underscores, each piece gets its
    first character uppercased, and the pieces are joined with single
    spaces ("Mileage Consistency"). */
module ScoreLabels {
  import opened Text

  /** `s.split(sep)`: the pieces between separators, always at least one. */
  function Split(s: string, sep: char): (r: seq<string>)
    ensures |r| >= 1
  {
    if s == [] then [""]
    else
      var rest := Split(s[1..], sep);
      if s[0] == sep then [""] + rest
      else [[s[0]] + rest[0]] + rest[1..]
  }

  /** Each piece preceded by the separator, concatenated. */
  function JoinAfter(ws: seq<string>, sep: char): string
  {
    if ws == [] then "" else [sep] + ws[0] + JoinAfter(ws[1..], sep)
  }

  /** `ws.join(sep)` for a non-empty list. */
  function Join(ws: seq<string>, sep: char): string
    requires ws != []
  {
    ws[0] + JoinAfter(ws[1..], sep)
  }

  /** Joining the pieces of a split gives back the string, and no piece
      contains the separator. */
  lemma {:induction false} SplitJoin(s: string, sep: char)
    ensures Join(Split(s, sep), sep) == s
    ensures forall k :: 0 <= k < |Split(s, sep)| ==> sep !in Split(s, sep)[k]
  {
    if s != [] {
      var rest := Split(s[1..], sep);
      SplitJoin(s[1..], sep);
      if s[0] == sep {
        assert Split(s, sep)[1..] == rest;
      } else {
        var ws := Split(s, sep);
        assert ws[1..] == rest[1..];
        forall k | 0 <= k < |ws| ensures sep !in ws[k] {
          if k == 0 {
            assert ws[0] == [s[0]] + rest[0];
          } else {
            assert ws[k] == rest[k];
          }
        }
      }
      assert s == [s[0]] + s[1..];
    }
  }

  /** `word.charAt(0).toUpperCase() + word.slice(1)`. */
  function Capitalize(w: string): string
  {
    if w == [] then [] else [UpperChar(w[0])] + w[1..]
  }

  function CapitalizeAll(ws: seq<string>): (r: seq<string>)
    ensures |r| == |ws|
  {
    if ws == [] then [] else [Capitalize(ws[0])] + CapitalizeAll(ws[1..])
  }

  function FormatScoreLabel(key: string): string
  {
    Join(CapitalizeAll(Split(key, '_')), ' ')
  }

  /** The label's character at position `i`: a space for an underscore,
      the uppercase of a character that starts a piece, otherwise the
      character itself. */
  function LabelChar(key: string, i: int): char
    requires 0 <= i < |key|
  {
    if key[i] == '_' then ' '
    else if i == 0 || key[i - 1] == '_' then UpperChar(key[i])
    else key[i]
  }

  /** The label rendered one character at a time; `atStart` says whether
      the first character starts a piece. */
  function Rendered(s: string, atStart: bool): (r: string)
  {
    if s == [] then []
    else [if s[0] == '_' then ' ' else if atStart then UpperChar(s[0]) else s[0]] + Rendered(s[1..], s[0] == '_')
  }

  /** The label with its first piece left as it is. */
  function PlainFirst(s: string): string
  {
    var ws := Split(s, '_');
    ws[0] + JoinAfter(CapitalizeAll(ws[1..]), ' ')
  }

  lemma {:induction false} LabelIsRendered(s: string)
    ensures FormatScoreLabel(s) == Rendered(s, true)
    ensures PlainFirst(s) == Rendered(s, false)
  {
    if s != [] {
      var rest := Split(s[1..], '_');
      LabelIsRendered(s[1..]);
      if s[0] == '_' {
        assert Split(s, '_') == [""] + rest;
        assert Split(s, '_')[1..] == rest;
        assert CapitalizeAll(rest) == [Capitalize(rest[0])] + CapitalizeAll(rest[1..]);
      } else {
        var ws := Split(s, '_');
        assert ws[0] == [s[0]] + rest[0];
        assert ws[1..] == rest[1..];
        assert CapitalizeAll(ws)[1..] == CapitalizeAll(ws[1..]);
      }
    }
  }

  lemma {:induction false} RenderedLength(s: string, atStart: bool)
    ensures |Rendered(s, atStart)| == |s|
  {
    if s != [] {
      RenderedLength(s[1..], s[0] == '_');
    }
  }

  lemma {:induction false} RenderedAt(s: string, atStart: bool, i: int)
    requires 0 <= i < |s|
    ensures |Rendered(s, atStart)| == |s|
    ensures Rendered(s, atStart)[i] ==
              (if s[i] == '_' then ' '
               else if (i == 0 && atStart) || (i > 0 && s[i - 1] == '_') then UpperChar(s[i])
               else s[i])
  {
    RenderedLength(s, atStart);
    if i > 0 {
      var tail := s[1..];
      RenderedAt(tail, s[0] == '_', i - 1);
      assert Rendered(s, atStart)[i] == Rendered(tail, s[0] == '_')[i - 1];
      assert tail[i - 1] == s[i];
      if i > 1 {
        assert tail[i - 2] == s[i - 1];
      }
    }
  }

  /** The label has the key's length; underscores become spaces and each
      piece's first character is uppercased, nothing else changes. */
  lemma FormatScoreLabelPointwise(key: string)
    ensures |FormatScoreLabel(key)| == |key|
    ensures forall i :: 0 <= i < |key| ==> FormatScoreLabel(key)[i] == LabelChar(key, i)
  {
    LabelIsRendered(key);
    RenderedLength(key, true);
    forall i | 0 <= i < |key| ensures FormatScoreLabel(key)[i] == LabelChar(key, i) {
      RenderedAt(key, true, i);
    }
  }
}
