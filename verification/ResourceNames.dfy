/** Resource lists as the log stores them: ids joined by commas, and split again when they are released. */
module ResourceNames {

  function Join(ids: seq<string>): string {
    if ids == [] then "" else if |ids| == 1 then ids[0] else ids[0] + "," + Join(ids[1..])
  }

  /** The pieces between commas, empty ones included. */
  function Pieces(s: string): (ps: seq<string>)
    ensures ps != []
  {
    if s == "" then [""]
    else
      var rest := Pieces(s[1..]);
      if s[0] == ',' then [""] + rest else [[s[0]] + rest[0]] + rest[1..]
  }

  function DropTrailingEmpty(ps: seq<string>): seq<string> {
    if ps == [] || ps[|ps| - 1] != "" then ps else DropTrailingEmpty(ps[..|ps| - 1])
  }

  /** Splitting at commas drops trailing empty pieces, except that a string without a comma is one piece. */
  function Split(s: string): seq<string> {
    if ',' !in s then [s] else DropTrailingEmpty(Pieces(s))
  }

  ghost predicate NoCommas(ids: seq<string>) {
    forall i :: 0 <= i < |ids| ==> ',' !in ids[i]
  }

  /** The lists that survive being joined and split. */
  ghost predicate Faithful(ids: seq<string>) {
    ids != [] && NoCommas(ids) && (|ids| == 1 || ids[|ids| - 1] != "")
  }

  lemma {:induction false} PiecesOfPlain(s: string)
    requires ',' !in s
    ensures Pieces(s) == [s]
  {
    if s != "" {
      PiecesOfPlain(s[1..]);
      assert [s[0]] + s[1..] == s;
    }
  }

  lemma {:induction false} PiecesPrefix(s: string, t: string)
    requires ',' !in s
    ensures Pieces(s + "," + t) == [s] + Pieces(t)
  {
    if s == "" {
      assert s + "," + t == "," + t;
      assert ("," + t)[1..] == t;
    } else {
      assert (s + "," + t)[1..] == s[1..] + "," + t;
      PiecesPrefix(s[1..], t);
      assert [s[0]] + s[1..] == s;
      var u := s + "," + t;
      assert u[0] == s[0];
      assert ([s[1..]] + Pieces(t))[1..] == Pieces(t);
    }
  }

  lemma {:induction false} PiecesOfJoin(ids: seq<string>)
    requires ids != [] && NoCommas(ids)
    ensures Pieces(Join(ids)) == ids
    ensures ',' in Join(ids) <==> |ids| > 1
  {
    if |ids| == 1 {
      PiecesOfPlain(ids[0]);
    } else {
      PiecesOfJoin(ids[1..]);
      PiecesPrefix(ids[0], Join(ids[1..]));
      assert [ids[0]] + ids[1..] == ids;
      assert (ids[0] + "," + Join(ids[1..]))[|ids[0]|] == ',';
    }
  }

  lemma {:induction false} PiecesHaveNoCommas(s: string)
    ensures NoCommas(Pieces(s))
  {
    if s != "" {
      PiecesHaveNoCommas(s[1..]);
    }
  }

  lemma {:induction false} DroppedIsPrefix(ps: seq<string>)
    ensures DropTrailingEmpty(ps) <= ps
    ensures ps != [] && ps[|ps| - 1] == "" ==> |DropTrailingEmpty(ps)| < |ps|
  {
    if ps != [] && ps[|ps| - 1] == "" { DroppedIsPrefix(ps[..|ps| - 1]); }
  }

  /** No piece of a split list has a comma. */
  lemma SplitHasNoCommas(s: string)
    ensures NoCommas(Split(s))
  {
    PiecesHaveNoCommas(s);
    DroppedIsPrefix(Pieces(s));
  }

  /** What a release gives back is what the assignment took, exactly for the faithful lists. */
  lemma SplitUndoesJoinIff(ids: seq<string>)
    ensures Faithful(ids) ==> Split(Join(ids)) == ids
    ensures multiset(Split(Join(ids))) == multiset(ids) <==> Faithful(ids)
  {
    if ids == [] {
      assert multiset([""])[""] == 1;
    } else if !NoCommas(ids) {
      var i :| 0 <= i < |ids| && ',' in ids[i];
      SplitHasNoCommas(Join(ids));
      assert ids[i] in multiset(ids);
    } else {
      PiecesOfJoin(ids);
      DroppedIsPrefix(ids);
      if |ids| > 1 && ids[|ids| - 1] == "" {
        assert |multiset(Split(Join(ids)))| < |multiset(ids)|;
      }
    }
  }
}
