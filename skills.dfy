/** Comma-separated skills: the `split(',')`, `trim`, drop-empty parse used by
    the job forms and the profile form, and the `join(', ')` that shows a
    skills array back in a text field. */
module Skills {
  import opened JsText

  /** A skill as the parse produces it: non-empty, trimmed, comma-free. */
  predicate WellFormed(skill: string) {
    skill != "" && Trimmed(skill) && ',' !in skill
  }

  predicate AllWellFormed(skills: seq<string>) {
    forall i :: 0 <= i < |skills| ==> WellFormed(skills[i])
  }

  /** `parts.map(s => s.trim()).filter(s => s)`. */
  function Clean(parts: seq<string>): (r: seq<string>)
    ensures |r| <= |parts|
    decreases |parts|
  {
    if |parts| == 0 then []
    else
      var t := Trim(parts[0]);
      var rest := Clean(parts[1..]);
      if t != "" then [t] + rest else rest
  }

  /** What `Clean` keeps is non-empty and trimmed. */
  lemma {:induction false} CleanTrimmed(parts: seq<string>)
    ensures forall i :: 0 <= i < |Clean(parts)| ==> Clean(parts)[i] != "" && Trimmed(Clean(parts)[i])
    decreases |parts|
  {
    if |parts| > 0 {
      CleanTrimmed(parts[1..]);
    }
  }

  /** `s.split(',').map(s => s.trim()).filter(s => s)`. */
  function Parse(s: string): (skills: seq<string>)
    ensures AllWellFormed(skills)
  {
    var parts := Split(s, ',');
    var r := Clean(parts);
    CleanKeepsOut(parts, ',');
    CleanTrimmed(parts);
    r
  }

  /** `skills.join(', ')`. */
  function Show(skills: seq<string>): string {
    Join(skills, ", ")
  }

  /** An empty piece at the end adds no skill. */
  lemma {:induction false} CleanSnocBlank(parts: seq<string>)
    ensures Clean(parts + [""]) == Clean(parts)
    decreases |parts|
  {
    if |parts| == 0 {
      assert parts + [""] == [""];
      assert Trim("") == "";
    } else {
      assert (parts + [""])[1..] == parts[1..] + [""];
      CleanSnocBlank(parts[1..]);
    }
  }

  /** Trimming never brings a character in, so pieces without a comma stay without one. */
  lemma {:induction false} CleanKeepsOut(parts: seq<string>, c: char)
    requires forall i :: 0 <= i < |parts| ==> c !in parts[i]
    ensures forall i :: 0 <= i < |Clean(parts)| ==> c !in Clean(parts)[i]
    decreases |parts|
  {
    if |parts| > 0 {
      CleanKeepsOut(parts[1..], c);
      TrimKeepsOut(parts[0], c);
    }
  }

  /** `Clean` works piece by piece from the front. */
  lemma CleanCons(p: string, rest: seq<string>)
    ensures Clean([p] + rest) == (if Trim(p) != "" then [Trim(p)] else []) + Clean(rest)
  {
    assert ([p] + rest)[1..] == rest;
  }

  /** A blank piece and a blank-prefixed skill, as the join leaves them. */
  lemma CleanOfPiece(w: string, skill: string)
    requires AllWhite(w)
    requires WellFormed(skill)
    ensures Trim(w + skill) == skill
  {
    TrimAfterWhite(w, skill);
    TrimOfTrimmed(skill);
  }

  /** The split of a blank prefix, a skill, a comma and a tail. */
  lemma SplitOfPiece(w: string, skill: string, tail: string)
    requires AllWhite(w)
    requires WellFormed(skill)
    ensures Split(w + skill + ", " + tail, ',') == [w + skill] + Split(" " + tail, ',')
  {
    assert w + skill + ", " + tail == (w + skill) + [','] + (" " + tail);
    NoCommaInBlank(w);
    SplitAtFirst(w + skill, ',', " " + tail);
  }

  /** A comma is not blank. */
  lemma NoCommaInBlank(w: string)
    requires AllWhite(w)
    ensures ',' !in w
  {
    assert forall i :: 0 <= i < |w| ==> IsWhite(w[i]);
  }

  /** The pieces `split(',')` cuts from a blank prefix `w` followed by the
      shown list: the first skill after `w`, then each further skill after
      the space that follows its comma; `w` alone for no skills. */
  function Pieces(w: string, skills: seq<string>): seq<string>
    decreases |skills|
  {
    if |skills| == 0 then [w]
    else if |skills| == 1 then [w + skills[0]]
    else [w + skills[0]] + Pieces(" ", skills[1..])
  }

  /** Splitting a blank prefix and the shown list at commas gives the pieces. */
  lemma {:induction false} SplitShown(w: string, skills: seq<string>)
    requires AllWhite(w)
    requires AllWellFormed(skills)
    ensures Split(w + Show(skills), ',') == Pieces(w, skills)
    decreases |skills|
  {
    NoCommaInBlank(w);
    if |skills| == 0 {
      assert w + Show(skills) == w;
      SplitWithout(w, ',');
    } else if |skills| == 1 {
      assert w + Show(skills) == w + skills[0];
      SplitWithout(w + skills[0], ',');
    } else {
      var rest := skills[1..];
      assert w + Show(skills) == w + skills[0] + ", " + Show(rest);
      SplitOfPiece(w, skills[0], Show(rest));
      TailWellFormed(skills);
      BlankSpace();
      SplitShown(" ", rest);
    }
  }

  /** Trimming the pieces and dropping the empty ones gives the skills back. */
  lemma {:induction false} CleanPieces(w: string, skills: seq<string>)
    requires AllWhite(w)
    requires AllWellFormed(skills)
    ensures Clean(Pieces(w, skills)) == skills
    decreases |skills|
  {
    if |skills| == 0 {
      CleanPiecesNone(w, skills);
    } else if |skills| == 1 {
      CleanPiecesOne(w, skills);
    } else {
      TailWellFormed(skills);
      BlankSpace();
      CleanPieces(" ", skills[1..]);
      CleanPiecesCons(w, skills);
    }
  }

  /** The inductive step of `CleanPieces`. */
  lemma CleanPiecesCons(w: string, skills: seq<string>)
    requires AllWhite(w) && |skills| >= 2 && WellFormed(skills[0])
    requires Clean(Pieces(" ", skills[1..])) == skills[1..]
    ensures Clean(Pieces(w, skills)) == skills
  {
    var rest := skills[1..];
    assert Pieces(w, skills) == [w + skills[0]] + Pieces(" ", rest);
    CleanOfPiece(w, skills[0]);
    CleanKept(w + skills[0], skills[0], Pieces(" ", rest), rest);
    assert skills == [skills[0]] + rest;
  }

  /** A blank piece alone cleans to nothing. */
  lemma CleanPiecesNone(w: string, skills: seq<string>)
    requires AllWhite(w) && skills == []
    ensures Clean(Pieces(w, skills)) == skills
  {
    TrimOfWhite(w);
    CleanCons(w, []);
  }

  /** A blank prefix and one skill clean to that skill. */
  lemma CleanPiecesOne(w: string, skills: seq<string>)
    requires AllWhite(w) && |skills| == 1 && WellFormed(skills[0])
    ensures Clean(Pieces(w, skills)) == skills
  {
    CleanOfPiece(w, skills[0]);
    CleanOne(w + skills[0], skills[0]);
    assert skills == [skills[0]];
  }

  /** A single piece that trims to a skill cleans to that skill. */
  lemma CleanOne(p: string, skill: string)
    requires Trim(p) == skill && skill != ""
    ensures Clean([p]) == [skill]
  {
    assert [p][1..] == [];
    assert [skill] + [] == [skill];
  }

  /** A piece that trims to a skill, in front of pieces that clean to a
      list, adds that skill in front of the list. */
  lemma CleanKept(p: string, skill: string, pieces: seq<string>, r: seq<string>)
    requires Trim(p) == skill && skill != ""
    requires Clean(pieces) == r
    ensures Clean([p] + pieces) == [skill] + r
  {
    CleanCons(p, pieces);
  }

  /** One space is blank. */
  lemma BlankSpace()
    ensures AllWhite(" ")
  {
    assert IsWhite(" "[0]);
  }

  /** The skills after the first are well-formed too. */
  lemma TailWellFormed(skills: seq<string>)
    requires AllWellFormed(skills) && |skills| >= 1
    ensures AllWellFormed(skills[1..])
  {
    forall i | 0 <= i < |skills| - 1 ensures WellFormed(skills[1..][i]) {
      assert skills[1..][i] == skills[i + 1];
    }
  }

  /** Showing a list of well-formed skills and parsing the text gives the list back. */
  lemma ParseShow(skills: seq<string>)
    requires AllWellFormed(skills)
    ensures Parse(Show(skills)) == skills
  {
    assert "" + Show(skills) == Show(skills);
    SplitShown("", skills);
    CleanPieces("", skills);
  }

  /** Parsing is idempotent through the display join. */
  lemma ParseShowParse(s: string)
    ensures Parse(Show(Parse(s))) == Parse(s)
  {
    ParseShow(Parse(s));
  }
}
