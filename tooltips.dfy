/** A model of the info-button tooltips of script.js: every button owns one tooltip, a
    click on a button shows its tooltip (and highlights the button) after closing every
    other one, a second click on it closes it, and a click anywhere else on the page
    closes them all, so that at most one tooltip is visible at a time.

    Visibility is a boolean per button; the pixel placement of a visible tooltip is not
    part of this model. */
module Tooltips {

  /** The number of visible tooltips. */
  function Count(s: seq<bool>): nat {
    if s == [] then 0 else (if s[0] then 1 else 0) + Count(s[1..])
  }

  /** Every tooltip hidden. */
  function Closed(n: nat): (s: seq<bool>)
    ensures |s| == n
  {
    seq(n, _ => false)
  }

  /** The visibility after a click on button `i`: whether its tooltip was hidden decides
      whether it is shown; every other tooltip is hidden. */
  function Clicked(s: seq<bool>, i: nat): (t: seq<bool>)
    requires i < |s|
    ensures |t| == |s|
  {
    seq(|s|, j requires 0 <= j < |s| => j == i && !s[i])
  }

  /** A sequence with no `true` outside position `i` has one visible entry if `s[i]` holds
      and none otherwise. */
  lemma {:induction false} CountOnlyAt(s: seq<bool>, i: nat)
    requires i < |s|
    requires forall j :: 0 <= j < |s| && j != i ==> !s[j]
    ensures Count(s) == if s[i] then 1 else 0
  {
    if i == 0 {
      CountNone(s[1..]);
    } else {
      assert !s[0];
      CountOnlyAt(s[1..], i - 1);
    }
  }

  lemma {:induction false} CountNone(s: seq<bool>)
    requires forall j :: 0 <= j < |s| ==> !s[j]
    ensures Count(s) == 0
  {
    if s != [] {
      assert !s[0];
      CountNone(s[1..]);
    }
  }

  /** A click on a button whose tooltip is visible leaves no tooltip visible; a click on a
      button whose tooltip is hidden leaves exactly that tooltip visible. Either way at
      most one is visible afterwards, whatever was visible before. */
  lemma ClickOutcome(s: seq<bool>, i: nat)
    requires i < |s|
    ensures s[i] ==> Count(Clicked(s, i)) == 0
    ensures !s[i] ==> Clicked(s, i)[i] && Count(Clicked(s, i)) == 1
    ensures forall j :: 0 <= j < |s| && Clicked(s, i)[j] ==> j == i
    ensures Count(Clicked(s, i)) <= 1
  {
    CountOnlyAt(Clicked(s, i), i);
  }

  /** A click elsewhere on the page leaves nothing visible. */
  lemma ClosedOutcome(n: nat)
    ensures Count(Closed(n)) == 0
  {
    CountNone(Closed(n));
  }

  /** The buttons and their tooltips. `shown[k]` holds when tooltip `k` lacks the
      `hidden` class, `active[k]` when button `k` carries the highlight classes. */
  class InfoTips {
    var shown: array<bool>
    var active: array<bool>

    /** Both arrays cover the same buttons, a button is highlighted exactly while its
        tooltip is shown, and at most one tooltip is shown. */
    ghost predicate Valid()
      reads this, shown, active
    {
      && shown != active
      && shown.Length == active.Length
      && active[..] == shown[..]
      && Count(shown[..]) <= 1
    }

    /** `n` buttons, each with a freshly created, hidden tooltip and no highlight. */
    constructor (n: nat)
      ensures Valid() && fresh(shown) && fresh(active)
      ensures shown[..] == Closed(n)
    {
      shown := new bool[n](_ => false);
      active := new bool[n](_ => false);
      new;
      assert shown[..] == Closed(n) == active[..];
      ClosedOutcome(n);
    }

    /** Hides every tooltip and removes every button's highlight. */
    method CloseAllTips()
      requires shown != active && shown.Length == active.Length
      modifies shown, active
      ensures Valid()
      ensures shown[..] == Closed(shown.Length)
    {
      var k := 0;
      while k < shown.Length
        invariant 0 <= k <= shown.Length
        invariant forall j :: 0 <= j < k ==> !shown[j] && !active[j]
      {
        shown[k] := false;
        active[k] := false;
        k := k + 1;
      }
      assert shown[..] == Closed(shown.Length);
      assert active[..] == shown[..];
      ClosedOutcome(shown.Length);
    }

    /** A click on button `i`: it notes whether its tooltip was hidden, closes every
        tooltip, and shows (and highlights) its own only if it had been hidden. */
    method Click(i: nat)
      requires Valid() && i < shown.Length
      modifies shown, active
      ensures Valid()
      ensures shown[..] == Clicked(old(shown[..]), i)
    {
      ghost var before := shown[..];
      var willShow := !shown[i];
      CloseAllTips();
      if willShow {
        shown[i] := true;
        active[i] := true;
      }
      assert shown[..] == Clicked(before, i);
      assert active[..] == shown[..];
      ClickOutcome(before, i);
    }

    /** A click anywhere else on the page. */
    method DocumentClick()
      requires Valid()
      modifies shown, active
      ensures Valid()
      ensures shown[..] == Closed(shown.Length)
    {
      CloseAllTips();
    }
  }
}
