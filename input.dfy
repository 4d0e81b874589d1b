/** The argument checks of the input tools (telegram_agent/app/tools/input.py):
    the click-bounds check, the key list of `hotkey` and the range of `sleep`.
    The mouse, the keyboard and the pauses themselves are not modelled; a
    check that passes yields what would be handed to the device. */
module Input {
  import opened Wrappers
  import opened Text

  // ---------------------------------------------------------------- click

  /** Python's `str` of a list of ints: `[a, b, c]`. */
  function IntsRepr(xs: seq<int>): string {
    "[" + Join(seq(|xs|, i requires 0 <= i < |xs| => IntToString(xs[i])), ", ") + "]"
  }

  /** `_ensure_in_bounds`: `bounds` is `[left, top, right, bottom]`, edges
      included. */
  function EnsureInBounds(x: int, y: int, bounds: seq<int>): (r: Outcome)
    ensures r.Pass? <==> |bounds| == 4 && bounds[0] <= x <= bounds[2] && bounds[1] <= y <= bounds[3]
    ensures |bounds| != 4 ==> r == Fail("bounds must be [left, top, right, bottom]")
    ensures |bounds| == 4 && r.Fail? ==>
      r.error == "click (" + IntToString(x) + ", " + IntToString(y) + ") outside bounds " + IntsRepr(bounds)
  {
    if |bounds| != 4 then Fail("bounds must be [left, top, right, bottom]")
    else if !(bounds[0] <= x <= bounds[2] && bounds[1] <= y <= bounds[3]) then
      Fail("click (" + IntToString(x) + ", " + IntToString(y) + ") outside bounds " + IntsRepr(bounds))
    else Pass
  }

  /** `click`: the bounds are checked only when given; `Ok` carries the
      point the mouse is sent to. */
  function Click(x: int, y: int, bounds: Option<seq<int>>): (r: Result<(int, int)>)
    ensures r.Ok? ==> r.value == (x, y)
    ensures bounds.None? ==> r.Ok?
    ensures bounds.Some? ==> (r.Ok? <==> EnsureInBounds(x, y, bounds.value).Pass?)
    ensures r.Err? ==> r.error == EnsureInBounds(x, y, bounds.value).error
  {
    if bounds.Some? then
      var check := EnsureInBounds(x, y, bounds.value);
      if check.Fail? then Err(check.error) else Ok((x, y))
    else Ok((x, y))
  }

  /** The four corners of a box are inside it, and one step past any edge is not. */
  lemma BoundsAreInclusive(left: int, top: int, right: int, bottom: int)
    requires left <= right && top <= bottom
    ensures EnsureInBounds(left, top, [left, top, right, bottom]).Pass?
    ensures EnsureInBounds(right, bottom, [left, top, right, bottom]).Pass?
    ensures EnsureInBounds(left - 1, top, [left, top, right, bottom]).Fail?
    ensures EnsureInBounds(left, bottom + 1, [left, top, right, bottom]).Fail?
  {
  }

  // ---------------------------------------------------------------- hotkey

  /** A string `lower()` leaves alone. */
  predicate IsLower(s: string) {
    forall i :: 0 <= i < |s| ==> LowerChar(s[i]) == s[i]
  }

  /** A key as `hotkey` hands it on: not blank, stripped, lower case, and
      free of the `+` separator. */
  predicate IsKey(k: string) {
    k != [] && Trimmed(k) && IsLower(k) && '+' !in k
  }

  /** `[part.strip().lower() for part in parts if part.strip()]`. */
  function Keys(parts: seq<string>): (keys: seq<string>)
    ensures |keys| <= |parts|
  {
    if parts == [] then []
    else if Strip(parts[0]) == [] then Keys(parts[1..])
    else [Lower(Strip(parts[0]))] + Keys(parts[1..])
  }

  /** Lower-casing keeps a string stripped and leaves no upper-case letter. */
  lemma LowerKeepsTrimmed(s: string)
    requires Trimmed(s)
    ensures Trimmed(Lower(s)) && IsLower(Lower(s))
  {
  }

  /** Every key comes out of a separate part, so none is blank, padded, upper
      case, or holds a `+`. */
  lemma {:induction false} KeysAreKeys(parts: seq<string>)
    requires forall i :: 0 <= i < |parts| ==> '+' !in parts[i]
    ensures forall i :: 0 <= i < |Keys(parts)| ==> IsKey(Keys(parts)[i])
  {
    if parts != [] {
      KeysAreKeys(parts[1..]);
      var s := Strip(parts[0]);
      if s != [] {
        LowerKeepsTrimmed(s);
        StripKeeps(parts[0], '+');
        assert '+' !in Lower(s);
      }
    }
  }

  /** `hotkey`'s key list, or the error when no key remains. */
  function HotkeyKeys(keys: string): (r: Result<seq<string>>)
    ensures r.Ok? ==> r.value != [] && forall i :: 0 <= i < |r.value| ==> IsKey(r.value[i])
    ensures r.Err? ==> r.error == "keys must not be empty"
  {
    var parts := Keys(Split(keys, '+'));
    KeysAreKeys(Split(keys, '+'));
    if parts == [] then Err("keys must not be empty") else Ok(parts)
  }

  /** The parts of an already normal key list are kept as they are, in order. */
  lemma {:induction false} KeysOfKeys(ks: seq<string>)
    requires forall i :: 0 <= i < |ks| ==> IsKey(ks[i])
    ensures Keys(ks) == ks
  {
    if ks != [] {
      StripTrimmed(ks[0]);
      assert Lower(ks[0]) == ks[0];
      KeysOfKeys(ks[1..]);
      assert [ks[0]] + ks[1..] == ks;
    }
  }

  /** Joining normal keys with `+` and parsing them gives the same keys back. */
  lemma HotkeyRoundTrip(ks: seq<string>)
    requires ks != [] && forall i :: 0 <= i < |ks| ==> IsKey(ks[i])
    ensures HotkeyKeys(Join(ks, "+")) == Ok(ks)
  {
    SplitJoin(ks, '+');
    KeysOfKeys(ks);
  }

  /** The keys of two runs of parts are the keys of each, in order. */
  lemma {:induction false} KeysConcat(p: seq<string>, q: seq<string>)
    ensures Keys(p + q) == Keys(p) + Keys(q)
  {
    if p != [] {
      assert (p + q)[0] == p[0] && (p + q)[1..] == p[1..] + q;
      KeysConcat(p[1..], q);
    } else {
      assert p + q == q;
    }
  }

  /** Splitting "a+ +b" gives a blank middle part. */
  lemma SplitAroundBlank(a: string, b: string)
    requires '+' !in a && '+' !in b
    ensures Split(a + "+ +" + b, '+') == [a, " ", b]
  {
    assert a + "+ +" + b == a + ['+'] + (" " + ['+'] + b);
    SplitConcat(a, " " + ['+'] + b, '+');
    SplitConcat(" ", b, '+');
    SplitWithoutSep(a, '+');
    SplitWithoutSep(" ", '+');
    SplitWithoutSep(b, '+');
  }

  /** A blank part yields no key. */
  lemma BlankPartDropped(rest: seq<string>)
    ensures Keys([" "] + rest) == Keys(rest)
  {
    StripBlank(" ");
    assert ([" "] + rest)[1..] == rest;
  }

  /** A part that is already a key is kept as it is. */
  lemma KeyPartKept(a: string, rest: seq<string>)
    requires IsKey(a)
    ensures Keys([a] + rest) == [a] + Keys(rest)
  {
    StripTrimmed(a);
    assert Lower(a) == a;
    assert ([a] + rest)[1..] == rest;
  }

  /** `hotkey` hands on the keys of the parts of its argument. */
  lemma HotkeyOfParts(s: string, ks: seq<string>)
    requires Keys(Split(s, '+')) == ks && ks != []
    ensures HotkeyKeys(s) == Ok(ks)
  {
  }

  /** Blank parts are dropped: "ctrl+ +c" and "ctrl+c" name the same keys. */
  lemma KeysSkipBlank(a: string, b: string)
    requires IsKey(a) && IsKey(b)
    ensures HotkeyKeys(a + "+ +" + b) == Ok([a, b])
  {
    SplitAroundBlank(a, b);
    assert Keys([a, " ", b]) == [a, b] by {
      KeyPartKept(b, []);
      BlankPartDropped([b]);
      KeyPartKept(a, [" ", b]);
      assert [a, " ", b] == [a] + [" ", b] && [" ", b] == [" "] + [b] && [b] == [b] + [];
    }
    HotkeyOfParts(a + "+ +" + b, [a, b]);
  }

  // ---------------------------------------------------------------- sleep

  /** `sleep`'s range check: 0 and 30 seconds are allowed. */
  function Sleep(seconds: real): (r: Outcome)
    ensures r.Pass? <==> 0.0 <= seconds <= 30.0
    ensures seconds < 0.0 ==> r == Fail("seconds must be non-negative")
    ensures seconds > 30.0 ==> r == Fail("seconds must be <= 30")
  {
    if seconds < 0.0 then Fail("seconds must be non-negative")
    else if seconds > 30.0 then Fail("seconds must be <= 30")
    else Pass
  }
}
