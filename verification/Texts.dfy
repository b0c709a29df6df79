/** Facts about texts cut at a separator. */
module Texts {

  /** Two texts cut at their first occurrence of a character are equal only if both sides are. */
  lemma CutAtFirst(left1: string, right1: string, left2: string, right2: string, mark: char)
    requires mark !in left1 && mark !in left2
    requires left1 + [mark] + right1 == left2 + [mark] + right2
    ensures left1 == left2 && right1 == right2
  {
    var whole1, whole2 := left1 + [mark] + right1, left2 + [mark] + right2;
    assert whole1[|left1|] == mark && whole2[|left2|] == mark;
    assert forall i | 0 <= i < |left1| :: whole1[i] == left1[i];
    assert forall i | 0 <= i < |left2| :: whole2[i] == left2[i];
    assert |left1| == |left2|;
    assert left1 == whole1[..|left1|] == whole2[..|left1|] == left2;
    assert right1 == whole1[|left1| + 1..] == whole2[|left1| + 1..] == right2;
  }

  /** Two texts cut at their last occurrence of a character are equal only if both sides are. */
  lemma CutAtLast(left1: string, right1: string, left2: string, right2: string, mark: char)
    requires mark !in right1 && mark !in right2
    requires left1 + [mark] + right1 == left2 + [mark] + right2
    ensures left1 == left2 && right1 == right2
  {
    var whole1, whole2 := left1 + [mark] + right1, left2 + [mark] + right2;
    assert whole1[|left1|] == mark && whole2[|left2|] == mark;
    assert forall i | |left1| < i < |whole1| :: whole1[i] != mark by {
      forall i | |left1| < i < |whole1| ensures whole1[i] != mark {
        assert whole1[i] == right1[i - |left1| - 1];
      }
    }
    assert forall i | |left2| < i < |whole2| :: whole2[i] != mark by {
      forall i | |left2| < i < |whole2| ensures whole2[i] != mark {
        assert whole2[i] == right2[i - |left2| - 1];
      }
    }
    assert |left1| == |left2|;
    assert left1 == whole1[..|left1|] == whole2[..|left1|] == left2;
    assert right1 == whole1[|left1| + 1..] == whole2[|left1| + 1..] == right2;
  }

  /** The pieces of a text between the occurrences of a character. */
  function Cut(text: string, mark: char): (pieces: seq<string>)
    ensures pieces != []
  {
    if text == "" then [""]
    else
      var rest := Cut(text[1..], mark);
      if text[0] == mark then [""] + rest else [[text[0]] + rest[0]] + rest[1..]
  }

  lemma {:induction false} CutOnce(piece: string, mark: char)
    requires mark !in piece
    ensures Cut(piece, mark) == [piece]
  {
    if piece != "" {
      assert piece[0] in piece && forall c <- piece[1..] :: c in piece;
      CutOnce(piece[1..], mark);
      assert [piece[0]] + piece[1..] == piece;
    }
  }

  lemma {:induction false} CutFirstPiece(piece: string, mark: char, rest: string)
    requires mark !in piece
    ensures Cut(piece + [mark] + rest, mark) == [piece] + Cut(rest, mark)
  {
    var text := piece + [mark] + rest;
    if piece == "" {
      assert text[1..] == rest;
    } else {
      assert piece[0] in piece && forall c <- piece[1..] :: c in piece;
      CutFirstPiece(piece[1..], mark, rest);
      assert text[1..] == piece[1..] + [mark] + rest;
      assert [piece[0]] + piece[1..] == piece;
    }
  }
}
