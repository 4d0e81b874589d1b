/** The bot's settings (telegram_agent/app/settings.py) and the parsing of
    the comma-separated id lists `allowed_users()` / `allowed_chats()`:
    split on ",", strip each part, skip blank parts, `int()` the rest, and
    collect them in a set. Loading the values from the environment is not
    modelled; a `Settings` value is what that loading produced. */
module Config {
  import opened Wrappers
  import opened Text

  datatype Settings = Settings(
    botToken: string,
    allowedUserIds: string,
    allowedChatIds: string,
    sqlitePath: string,
    auditDir: string,
    taskTimeoutSeconds: int,
    pollIntervalSeconds: real)

  /** `str(exc)` of the `ValueError` that `int(part)` raises. */
  function IntError(part: string): string {
    "invalid literal for int() with base 10: '" + part + "'"
  }

  /** What the comprehension makes of one part: skipped when blank once
      stripped, else the `int()` of the stripped part or its error. */
  datatype Item = Blank | Id(n: int) | NotInt(text: string)

  function Classify(part: string): (r: Item)
    ensures r.Blank? <==> Strip(part) == ""
    ensures r.NotInt? ==> r.text == Strip(part) && r.text != "" && PyInt(Strip(part)).None?
    ensures r.Id? ==> PyInt(Strip(part)) == Some(r.n)
  {
    var t := Strip(part);
    if t == "" then Blank
    else match PyInt(t)
      case None => NotInt(t)
      case Some(n) => Id(n)
  }

  /** The set comprehension over the parts, left to right, with the per-part
      conversion `cl` (`Classify` in the program): the first part that is not
      an integer raises. The lemmas below hold for every conversion. */
  function Collect(parts: seq<string>, cl: string -> Item): Result<set<int>>
    decreases |parts|
  {
    if parts == [] then Ok({})
    else match cl(parts[0])
      case Blank => Collect(parts[1..], cl)
      case NotInt(t) => Err(IntError(t))
      case Id(n) =>
        var rest := Collect(parts[1..], cl);
        if rest.Err? then rest else Ok({n} + rest.value)
  }

  /** `{int(value.strip()) for value in ids.split(",") if value.strip()}`. */
  function ParseIds(ids: string): Result<set<int>> {
    Collect(Split(ids, ','), Classify)
  }

  /** `Settings.allowed_users()`. */
  function AllowedUsers(settings: Settings): Result<set<int>> {
    ParseIds(settings.allowedUserIds)
  }

  /** `Settings.allowed_chats()`. */
  function AllowedChats(settings: Settings): Result<set<int>> {
    ParseIds(settings.allowedChatIds)
  }

  /** The parse succeeds iff every part is blank or an integer. */
  lemma {:induction false} CollectOk(parts: seq<string>, cl: string -> Item)
    ensures Collect(parts, cl).Ok? <==> forall i :: 0 <= i < |parts| ==> !cl(parts[i]).NotInt?
    decreases |parts|
  {
    if parts != [] {
      CollectOk(parts[1..], cl);
      assert forall i :: 1 <= i < |parts| ==> parts[i] == parts[1..][i - 1];
    }
  }

  /** A successful parse is exactly the set of the parts' integers,
      duplicates collapsed. */
  lemma {:induction false} CollectValues(parts: seq<string>, cl: string -> Item)
    requires Collect(parts, cl).Ok?
    ensures forall n :: n in Collect(parts, cl).value <==> exists i :: 0 <= i < |parts| && cl(parts[i]) == Id(n)
    decreases |parts|
  {
    if parts != [] {
      var tail := parts[1..];
      CollectValues(tail, cl);
      assert forall i :: 0 <= i < |tail| ==> tail[i] == parts[i + 1];
      forall n | n in Collect(parts, cl).value
        ensures exists i :: 0 <= i < |parts| && cl(parts[i]) == Id(n)
      {
        if cl(parts[0]) != Id(n) {
          var i :| 0 <= i < |tail| && cl(tail[i]) == Id(n);
          assert cl(parts[i + 1]) == Id(n);
        }
      }
      forall n, i | 0 <= i < |parts| && cl(parts[i]) == Id(n)
        ensures n in Collect(parts, cl).value
      {
        if i > 0 {
          assert cl(tail[i - 1]) == Id(n);
        }
      }
    }
  }

  /** A failed parse reports the first part that is not an integer. */
  lemma {:induction false} CollectError(parts: seq<string>, cl: string -> Item)
    requires Collect(parts, cl).Err?
    ensures exists i ::
      && 0 <= i < |parts| && cl(parts[i]).NotInt?
      && (forall j :: 0 <= j < i ==> !cl(parts[j]).NotInt?)
      && Collect(parts, cl).error == IntError(cl(parts[i]).text)
    decreases |parts|
  {
    var tail := parts[1..];
    if !cl(parts[0]).NotInt? {
      CollectError(tail, cl);
      var i :| 0 <= i < |tail| && cl(tail[i]).NotInt?
        && (forall j :: 0 <= j < i ==> !cl(tail[j]).NotInt?)
        && Collect(tail, cl).error == IntError(cl(tail[i]).text);
      assert tail[i] == parts[i + 1];
      assert forall j :: 1 <= j < i + 1 ==> parts[j] == tail[j - 1];
    }
  }

  /** Splitting "a,b" parses the two sides and unites them. */
  lemma {:induction false} CollectConcat(a: seq<string>, b: seq<string>, cl: string -> Item)
    requires Collect(a, cl).Ok? && Collect(b, cl).Ok?
    ensures Collect(a + b, cl) == Ok(Collect(a, cl).value + Collect(b, cl).value)
    decreases |a|
  {
    if a == [] {
      assert a + b == b;
      assert Collect(a, cl) == Ok({});
      assert {} + Collect(b, cl).value == Collect(b, cl).value;
    } else {
      assert (a + b)[1..] == a[1..] + b;
      assert (a + b)[0] == a[0];
      CollectConcat(a[1..], b, cl);
      match cl(a[0])
      case Blank =>
      case NotInt(_) =>
      case Id(n) =>
        assert Collect(a, cl) == Ok({n} + Collect(a[1..], cl).value);
        assert Collect(a[1..] + b, cl) == Ok(Collect(a[1..], cl).value + Collect(b, cl).value);
        assert Collect(a + b, cl) == Ok({n} + Collect((a + b)[1..], cl).value);
        assert {n} + (Collect(a[1..], cl).value + Collect(b, cl).value)
            == ({n} + Collect(a[1..], cl).value) + Collect(b, cl).value;
    }
  }

  /** Joining two lists with "," gives the union of their ids. */
  lemma ParseIdsConcat(a: string, b: string)
    requires ParseIds(a).Ok? && ParseIds(b).Ok?
    ensures ParseIds(a + "," + b) == Ok(ParseIds(a).value + ParseIds(b).value)
  {
    SplitConcat(a, b, ',');
    assert a + "," + b == a + [','] + b;
    CollectConcat(Split(a, ','), Split(b, ','), Classify);
  }

  /** Repeating a list changes nothing: duplicate ids collapse. */
  lemma ParseIdsDuplicate(a: string)
    requires ParseIds(a).Ok?
    ensures ParseIds(a + "," + a) == ParseIds(a)
  {
    ParseIdsConcat(a, a);
    var v := ParseIds(a).value;
    assert v + v == v;
  }

  /** A list of blank parts only, the empty string included, is the empty set. */
  lemma {:induction false} CollectBlank(parts: seq<string>, cl: string -> Item)
    requires forall i :: 0 <= i < |parts| ==> cl(parts[i]) == Blank
    ensures Collect(parts, cl) == Ok({})
    decreases |parts|
  {
    if parts != [] {
      assert forall i :: 0 <= i < |parts[1..]| ==> parts[1..][i] == parts[i + 1];
      CollectBlank(parts[1..], cl);
    }
  }

  lemma BlankIdsEmpty(ids: string)
    requires forall i :: 0 <= i < |ids| ==> IsSpace(ids[i]) || ids[i] == ','
    ensures ParseIds(ids) == Ok({})
  {
    var parts := Split(ids, ',');
    forall i | 0 <= i < |parts|
      ensures Classify(parts[i]) == Blank
    {
      SplitPartsFrom(ids, ',', i);
      StripBlank(parts[i]);
    }
    CollectBlank(parts, Classify);
  }

  /** Every character of a piece of a split comes from the string. */
  lemma {:induction false} SplitPartsFrom(s: string, sep: char, i: nat)
    requires i < |Split(s, sep)|
    ensures forall k :: 0 <= k < |Split(s, sep)[i]| ==> Split(s, sep)[i][k] in s
    decreases |s|
  {
    if s != [] {
      var rest := Split(s[1..], sep);
      if s[0] == sep {
        if i > 0 {
          SplitPartsFrom(s[1..], sep, i - 1);
        }
      } else if i == 0 {
        SplitPartsFrom(s[1..], sep, 0);
        assert forall k :: 1 <= k < |Split(s, sep)[0]| ==> Split(s, sep)[0][k] == rest[0][k - 1];
      } else {
        SplitPartsFrom(s[1..], sep, i);
      }
    }
  }

  /** `str(n)` is read back as `n`. */
  lemma ClassifyInt(n: int)
    ensures Classify(IntToString(n)) == Id(n)
  {
    IntToStringShape(n);
    StripTrimmed(IntToString(n));
    PyIntOfIntToString(n);
  }

  /** Two parts: both ids, or an id then a bad part. */
  lemma CollectTwo(x: string, y: string, cl: string -> Item)
    requires cl(x).Id?
    ensures cl(y).Id? ==> Collect([x, y], cl) == Ok({cl(x).n, cl(y).n})
    ensures cl(y).NotInt? ==> Collect([x, y], cl) == Err(IntError(cl(y).text))
  {
    var parts := [x, y];
    assert parts[1..] == [y];
    assert [y][1..] == [];
    assert Collect([], cl) == Ok({});
    if cl(y).Id? {
      assert {cl(y).n} + {} == {cl(y).n};
      assert {cl(x).n} + {cl(y).n} == {cl(x).n, cl(y).n};
    }
    assert Collect([y], cl) == (if cl(y).Id? then Ok({cl(y).n}) else if cl(y).NotInt? then Err(IntError(cl(y).text)) else Ok({}));
    assert Collect(parts, cl) == (var rest := Collect([y], cl); if rest.Err? then rest else Ok({cl(x).n} + rest.value));
  }

  /** `str(n)` never holds a comma. */
  lemma NoCommaInInt(n: int)
    ensures ',' !in IntToString(n)
  {
    IntToStringShape(n);
  }

  /** A list of one id. */
  lemma SingleId(a: int)
    ensures ParseIds(IntToString(a)) == Ok({a})
  {
    NoCommaInInt(a);
    SplitWithoutSep(IntToString(a), ',');
    ClassifyInt(a);
    var parts := [IntToString(a)];
    assert parts[1..] == [];
    assert Collect([], Classify) == Ok({});
    assert {a} + {} == {a};
  }

  /** A list of two ids. */
  lemma TwoIds(a: int, b: int)
    ensures ParseIds(IntToString(a) + "," + IntToString(b)) == Ok({a, b})
  {
    NoCommaInInt(a);
    NoCommaInInt(b);
    SplitWithoutSep(IntToString(a), ',');
    SplitWithoutSep(IntToString(b), ',');
    SplitConcat(IntToString(a), IntToString(b), ',');
    assert IntToString(a) + "," + IntToString(b) == IntToString(a) + [','] + IntToString(b);
    ClassifyInt(a);
    ClassifyInt(b);
    CollectTwo(IntToString(a), IntToString(b), Classify);
  }

  /** `ALLOWED_CHAT_IDS="10,20"` allows chats 10 and 20. */
  lemma TenTwenty()
    ensures ParseIds("10,20") == Ok({10, 20})
  {
    TwoIds(10, 20);
    assert IntToString(10) + "," + IntToString(20) == "10,20" by {
      assert NatToString(1) == "1" && NatToString(2) == "2";
      assert NatToString(10) == "10" && NatToString(20) == "20";
    }
  }

  /** `ALLOWED_USER_IDS="1,2"` allows users 1 and 2. */
  lemma OneTwo()
    ensures ParseIds("1,2") == Ok({1, 2})
  {
    TwoIds(1, 2);
    assert IntToString(1) + "," + IntToString(2) == "1,2" by {
      assert NatToString(1) == "1" && NatToString(2) == "2";
    }
  }

  /** A part that is not an integer makes the whole list raise, with the
      stripped part in the message. */
  lemma NotAnIntRaises()
    ensures ParseIds("1, x") == Err(IntError("x"))
  {
    assert IntToString(1) == "1";
    ClassifyInt(1);
    SplitWithoutSep("1", ',');
    SplitWithoutSep(" x", ',');
    SplitConcat("1", " x", ',');
    assert "1, x" == "1" + [','] + " x";
    assert TrimStart(" x") == "x";
    assert Strip(" x") == "x";
    assert !DigitGroups("x");
    assert Classify(" x") == NotInt("x");
    CollectTwo("1", " x", Classify);
  }
}
