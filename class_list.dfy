/**
 * `addClass` and `removeClass` (projects/angular-draggable-droppable/src/lib/util.ts):
 * a class string is split on single spaces, as JavaScript's `split(' ')`
 * does, and each token is added to or removed from the element's class list
 * by the renderer.
 */
module ClassList {

  /** `s.split(' ')`: the pieces between consecutive spaces, so there is one
      more piece than there are spaces, and pieces can be empty. */
  function Split(s: string): (tokens: seq<string>)
    ensures |tokens| >= 1
    ensures forall i :: 0 <= i < |tokens| ==> ' ' !in tokens[i]
    ensures Join(tokens) == s
    decreases |s|
  {
    if |s| == 0 then [""]
    else
      var rest := Split(s[1..]);
      if s[0] == ' ' then
        [""] + rest
      else
        assert s == [s[0]] + s[1..];
        JoinCons(s[0], rest);
        [[s[0]] + rest[0]] + rest[1..]
  }

  /** `tokens.join(' ')`. */
  function Join(tokens: seq<string>): string
    requires |tokens| >= 1
    decreases |tokens|
  {
    if |tokens| == 1 then tokens[0] else tokens[0] + " " + Join(tokens[1..])
  }

  lemma JoinCons(c: char, tokens: seq<string>)
    requires |tokens| >= 1
    ensures Join([[c] + tokens[0]] + tokens[1..]) == [c] + Join(tokens)
  {
    var ts := [[c] + tokens[0]] + tokens[1..];
    assert ts[1..] == tokens[1..];
  }

  /** The other direction of the round trip: joining space-free tokens and
      splitting again gives the tokens back. */
  lemma {:induction false} SplitJoin(tokens: seq<string>)
    requires |tokens| >= 1
    requires forall i :: 0 <= i < |tokens| ==> ' ' !in tokens[i]
    ensures Split(Join(tokens)) == tokens
    decreases |tokens|, |tokens[0]|
  {
    if |tokens[0]| == 0 {
      if |tokens| == 1 {
      } else {
        var rest := tokens[1..];
        assert Join(tokens) == " " + Join(rest);
        SplitJoin(rest);
        assert (" " + Join(rest))[1..] == Join(rest);
        assert tokens == [""] + rest;
      }
    } else {
      var c := tokens[0][0];
      var shorter := [tokens[0][1..]] + tokens[1..];
      assert tokens[0] == [c] + tokens[0][1..];
      assert shorter[1..] == tokens[1..];
      assert forall i :: 0 <= i < |shorter| ==> ' ' !in shorter[i] by {
        forall i | 0 <= i < |shorter|
          ensures ' ' !in shorter[i]
        {
          if i == 0 {
            assert forall k :: 0 <= k < |shorter[0]| ==> shorter[0][k] == tokens[0][k + 1];
          } else {
            assert shorter[i] == tokens[i];
          }
        }
      }
      SplitJoin(shorter);
      JoinCons(c, shorter);
      assert [[c] + shorter[0]] + shorter[1..] == tokens;
      var s := Join(tokens);
      assert s == [c] + Join(shorter);
      assert s[1..] == Join(shorter);
      assert c != ' ' by { assert tokens[0][0] == c; }
    }
  }

  /** The class names a class string designates. */
  ghost function Tokens(s: string): set<string> {
    set i | 0 <= i < |Split(s)| :: Split(s)[i]
  }

  /** The class list after `addClass(s)`. */
  ghost function Added(classes: set<string>, s: string): (r: set<string>)
    ensures s != "" ==> Tokens(s) <= r
    ensures forall c :: c !in Tokens(s) ==> (c in r <==> c in classes)
    ensures classes <= r
  {
    if s == "" then classes else classes + Tokens(s)
  }

  /** The class list after `removeClass(s)`. */
  ghost function Removed(classes: set<string>, s: string): (r: set<string>)
    ensures s != "" ==> r !! Tokens(s)
    ensures forall c :: c !in Tokens(s) ==> (c in r <==> c in classes)
    ensures r <= classes
  {
    if s == "" then classes else classes - Tokens(s)
  }

  /** An element's class list, as far as the renderer's `addClass` and
      `removeClass` change it. */
  class Element {
    var classes: set<string>

    constructor (classes: set<string>)
      ensures this.classes == classes
    {
      this.classes := classes;
    }

    /** `addClass(renderer, element, classToAdd)`. */
    method AddClass(classToAdd: string)
      modifies this
      ensures classes == Added(old(classes), classToAdd)
    {
      if classToAdd != "" {
        var tokens := Split(classToAdd);
        var i := 0;
        while i < |tokens|
          invariant 0 <= i <= |tokens|
          invariant classes == old(classes) + set k | 0 <= k < i :: tokens[k]
        {
          classes := classes + {tokens[i]};
          i := i + 1;
          assert (set k | 0 <= k < i :: tokens[k]) == (set k | 0 <= k < i - 1 :: tokens[k]) + {tokens[i - 1]};
        }
      }
    }

    /** `removeClass(renderer, element, classToRemove)`. */
    method RemoveClass(classToRemove: string)
      modifies this
      ensures classes == Removed(old(classes), classToRemove)
    {
      if classToRemove != "" {
        var tokens := Split(classToRemove);
        var i := 0;
        while i < |tokens|
          invariant 0 <= i <= |tokens|
          invariant classes == old(classes) - set k | 0 <= k < i :: tokens[k]
        {
          classes := classes - {tokens[i]};
          i := i + 1;
          assert (set k | 0 <= k < i :: tokens[k]) == (set k | 0 <= k < i - 1 :: tokens[k]) + {tokens[i - 1]};
        }
      }
    }
  }

  /** Every token of a class string is a single class name: it contains no
      space. */
  lemma TokensHaveNoSpace(s: string, c: string)
    requires c in Tokens(s)
    ensures ' ' !in c
  {
  }

  /** "a b" designates exactly the classes "a" and "b". */
  lemma TwoClassString()
    ensures Tokens("a b") == {"a", "b"}
  {
    assert Split("a b") == ["a", "b"] by {
      SplitJoin(["a", "b"]);
    }
  }

  /** `removeClass(s)` after `addClass(s)` leaves none of the tokens of `s`,
      and every other class as it was before the add. */
  lemma RemoveAfterAdd(classes: set<string>, s: string)
    requires s != ""
    ensures Removed(Added(classes, s), s) == classes - Tokens(s)
  {
  }
}
