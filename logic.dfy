/**
 * The round resolution of the HeroVS battle game (logic.py, class Logic).
 *
 * The window's widgets are plain inputs here: the two name fields are the
 * strings `heroText` and `villainText` as typed, each side's three radio
 * buttons are a `Radios` value, and the four `random.randint` draws of a
 * round are a `Draws` value. The window's four counters live in the class
 * `ScoreBoard`; the CSV history file is the sequence of `Row`s that
 * `FinalStatement` appends to.
 */
module Logic {
  import opened PyStrings

  /** The three exception classes raised by the checks. */
  datatype Failure = NameShortError | NameLongError | WeaponError

  datatype Result<T> = Ok(value: T) | Err(error: Failure)

  datatype Option<T> = None | Some(value: T)

  const SWORD: string := "sword"
  const BOW: string := "bow"
  const BOOK: string := "book o' spells"

  /** What `winning_check` returns when neither side dealt more damage. */
  const TIE: string := "tie"

  /** The longest name, after stripping, that `name_check` accepts. */
  const MAX_NAME: nat := 10

  predicate IsWeapon(weapon: string) {
    weapon == SWORD || weapon == BOW || weapon == BOOK
  }

  // ---------------------------------------------------------------- names

  /**
   * `name_check`: strips both names; an empty one is a `NameShortError`,
   * checked before a name longer than MAX_NAME, which is a `NameLongError`.
   */
  function NameCheck(heroText: string, villainText: string): (r: Result<(string, string)>)
    ensures r == Err(NameShortError) <==> AllSpace(heroText) || AllSpace(villainText)
    ensures r == Err(NameLongError) <==>
      !AllSpace(heroText) && !AllSpace(villainText)
      && (|Strip(heroText)| > MAX_NAME || |Strip(villainText)| > MAX_NAME)
    ensures r.Err? ==> r.error != WeaponError
    ensures r.Ok? ==> r.value == (Strip(heroText), Strip(villainText))
    ensures r.Ok? ==> 1 <= |r.value.0| <= MAX_NAME && 1 <= |r.value.1| <= MAX_NAME
  {
    var hname := Strip(heroText);
    var vname := Strip(villainText);
    if |hname| < 1 || |vname| < 1 then Err(NameShortError)
    else if |hname| > MAX_NAME || |vname| > MAX_NAME then Err(NameLongError)
    else Ok((hname, vname))
  }

  // -------------------------------------------------------------- weapons

  /** The checked state of one side's sword, bow and book radio buttons. */
  datatype Radios = Radios(sword: bool, bow: bool, book: bool)

  predicate NoneChecked(sel: Radios) {
    !sel.sword && !sel.bow && !sel.book
  }

  /** The button of `sel` that stands for `weapon` is checked. */
  predicate Checked(sel: Radios, weapon: string) {
    (weapon == SWORD && sel.sword) || (weapon == BOW && sel.bow) || (weapon == BOOK && sel.book)
  }

  /** The order in which `weapon_check` asks the buttons: sword, bow, book. */
  function Rank(weapon: string): nat {
    if weapon == SWORD then 0 else if weapon == BOW then 1 else 2
  }

  /**
   * One side of `weapon_check`: the weapon of a checked button, the first in
   * the order sword, bow, book, or nothing when no button is checked.
   */
  function Choice(sel: Radios): (r: Option<string>)
    ensures r.None? <==> NoneChecked(sel)
    ensures r.Some? ==> IsWeapon(r.value) && Checked(sel, r.value)
    ensures r.Some? ==> forall l :: IsWeapon(l) && Checked(sel, l) ==> Rank(r.value) <= Rank(l)
  {
    if sel.sword then Some(SWORD)
    else if sel.bow then Some(BOW)
    else if sel.book then Some(BOOK)
    else None
  }

  /** `weapon_check`: both sides' labels, or a `WeaponError` if a side has none. */
  function WeaponCheck(h: Radios, v: Radios): (r: Result<(string, string)>)
    ensures r.Err? <==> NoneChecked(h) || NoneChecked(v)
    ensures r.Err? ==> r.error == WeaponError
    ensures r.Ok? ==> IsWeapon(r.value.0) && IsWeapon(r.value.1)
    ensures r.Ok? ==> Choice(h) == Some(r.value.0) && Choice(v) == Some(r.value.1)
  {
    match Choice(h)
    case None => Err(WeaponError)
    case Some(hchoice) =>
      match Choice(v)
      case None => Err(WeaponError)
      case Some(vchoice) => Ok((hchoice, vchoice))
  }

  // --------------------------------------------------------------- damage

  /**
   * The inclusive ranges of the two `random.randint` draws that `dam_calc`
   * makes for `choice`; for any other label it draws nothing.
   */
  predicate DrawsInRange(choice: string, a: int, b: int) {
    if choice == SWORD then 2 <= a <= 10 && 2 <= b <= 3
    else if choice == BOW then 1 <= a <= 15 && 1 <= b <= 3
    else if choice == BOOK then 2 <= a <= 20 && 0 <= b <= 3
    else true
  }

  /** 0 <= a*b <= hi*hj follows from the factors' bounds. */
  lemma ProductBounds(a: int, b: int, lo: int, hi: int, lj: int, hj: int)
    requires 0 <= lo <= a <= hi && 0 <= lj <= b <= hj
    ensures lo * lj <= a * b <= hi * hj
  {
    assert lo * lj <= a * lj <= a * b;
    assert a * b <= hi * b <= hi * hj;
  }

  /**
   * `dam_calc`: the product of the two draws for the chosen weapon; a label
   * that names no weapon is a `WeaponError`.
   */
  function DamCalc(choice: string, a: int, b: int): (r: Result<int>)
    requires DrawsInRange(choice, a, b)
    ensures r.Err? <==> !IsWeapon(choice)
    ensures r.Err? ==> r.error == WeaponError
    ensures choice == SWORD ==> r.Ok? && 4 <= r.value <= 30
    ensures choice == BOW ==> r.Ok? && 1 <= r.value <= 45
    ensures choice == BOOK ==> r.Ok? && 0 <= r.value <= 60 && (r.value == 0 <==> b == 0)
  {
    if choice == SWORD then
      ProductBounds(a, b, 2, 10, 2, 3);
      Ok(a * b)
    else if choice == BOW then
      ProductBounds(a, b, 1, 15, 1, 3);
      Ok(a * b)
    else if choice == BOOK then
      ProductBounds(a, b, 2, 20, 0, 3);
      assert b > 0 ==> a * b >= 2 by { if b > 0 { ProductBounds(a, b, 2, 20, 1, 3); } }
      Ok(a * b)
    else Err(WeaponError)
  }

  /** A spell book can deal no damage at all, and each weapon's bounds are reached. */
  lemma DamageBoundsReached()
    ensures DamCalc(BOOK, 2, 0) == Ok(0) && DamCalc(BOOK, 20, 3) == Ok(60)
    ensures DamCalc(SWORD, 2, 2) == Ok(4) && DamCalc(SWORD, 10, 3) == Ok(30)
    ensures DamCalc(BOW, 1, 1) == Ok(1) && DamCalc(BOW, 15, 3) == Ok(45)
  {
  }

  // --------------------------------------------------------------- winner

  /**
   * `winning_check`: the stripped name of the side that dealt strictly more
   * damage, or TIE. The result is a plain string, so it tells the sides
   * apart only when the two names differ from each other and from TIE.
   */
  function WinningCheck(heroText: string, villainText: string, hdam: int, vdam: int): (w: string)
    ensures w == Strip(heroText) || w == Strip(villainText) || w == TIE
    ensures hdam > vdam ==> w == Strip(heroText)
    ensures vdam > hdam ==> w == Strip(villainText)
    ensures hdam == vdam ==> w == TIE
    ensures Strip(heroText) != Strip(villainText) && Strip(heroText) != TIE && Strip(villainText) != TIE ==>
      (w == Strip(heroText) <==> hdam > vdam)
      && (w == Strip(villainText) <==> vdam > hdam)
      && (w == TIE <==> hdam == vdam)
  {
    if hdam > vdam then Strip(heroText)
    else if vdam > hdam then Strip(villainText)
    else TIE
  }

  // ---------------------------------------------------------------- score

  /** The window's four counters. */
  datatype Score = Score(hwins: nat, hlosses: nat, vwins: nat, vlosses: nat)

  /** Every hero win is a villain loss and every villain win a hero loss. */
  predicate Balanced(c: Score) {
    c.hwins == c.vlosses && c.vwins == c.hlosses
  }

  /**
   * What `win_loss_count` does to the counters: a `winner` equal to the hero
   * name credits the hero (even when the villain has the same name), one
   * equal to the villain name credits the villain, any other changes nothing.
   */
  function Tally(c: Score, winner: string, hname: string, vname: string): (r: Score)
    ensures Balanced(c) ==> Balanced(r)
    ensures winner == hname ==>
      r.hwins == c.hwins + 1 && r.vlosses == c.vlosses + 1 && r.vwins == c.vwins && r.hlosses == c.hlosses
    ensures winner != hname && winner == vname ==>
      r.vwins == c.vwins + 1 && r.hlosses == c.hlosses + 1 && r.hwins == c.hwins && r.vlosses == c.vlosses
    ensures winner != hname && winner != vname ==> r == c
  {
    if winner == hname then c.(hwins := c.hwins + 1, vlosses := c.vlosses + 1)
    else if winner == vname then c.(vwins := c.vwins + 1, hlosses := c.hlosses + 1)
    else c
  }

  // ---------------------------------------------------------------- round

  /** One line of the history file: `hname, hchoice, hdam, vname, vchoice, vdam`. */
  datatype Row = Row(hname: string, hchoice: string, hdam: int, vname: string, vchoice: string, vdam: int)

  /** A resolved round: the row it logs and what `winning_check` returned. */
  datatype Round = Round(row: Row, winner: string)

  /** The two draws for the hero's weapon and the two for the villain's. */
  datatype Draws = Draws(h1: int, h2: int, v1: int, v2: int)

  /** The draws lie in the ranges of the weapons actually chosen. */
  predicate DrawsFit(h: Radios, v: Radios, d: Draws) {
    (Choice(h).Some? ==> DrawsInRange(Choice(h).value, d.h1, d.h2))
    && (Choice(v).Some? ==> DrawsInRange(Choice(v).value, d.v1, d.v2))
  }

  /**
   * The computation inside the `try` of `final_statement`: names are checked
   * first, then weapons, then both sides' damage and the winner.
   */
  function Resolve(heroText: string, villainText: string, h: Radios, v: Radios, d: Draws): (r: Result<Round>)
    requires DrawsFit(h, v, d)
    ensures AllSpace(heroText) || AllSpace(villainText) ==> r == Err(NameShortError)
    ensures NameCheck(heroText, villainText).Err? ==> r == Err(NameCheck(heroText, villainText).error)
    ensures r == Err(WeaponError) <==> NameCheck(heroText, villainText).Ok? && (NoneChecked(h) || NoneChecked(v))
    ensures r.Ok? <==> NameCheck(heroText, villainText).Ok? && !NoneChecked(h) && !NoneChecked(v)
    ensures r.Ok? ==>
      var row := r.value.row;
      (row.hname, row.vname) == (Strip(heroText), Strip(villainText))
      && Some(row.hchoice) == Choice(h) && Some(row.vchoice) == Choice(v)
      && 0 <= row.hdam <= 60 && 0 <= row.vdam <= 60
      && r.value.winner == WinningCheck(heroText, villainText, row.hdam, row.vdam)
    ensures r.Ok? ==>
      var row := r.value.row;
      DrawsInRange(row.hchoice, d.h1, d.h2) && DrawsInRange(row.vchoice, d.v1, d.v2)
      && row.hdam == DamCalc(row.hchoice, d.h1, d.h2).value
      && row.vdam == DamCalc(row.vchoice, d.v1, d.v2).value
  {
    match NameCheck(heroText, villainText)
    case Err(e) => Err(e)
    case Ok(names) =>
      match WeaponCheck(h, v)
      case Err(e) => Err(e)
      case Ok(choices) =>
        var hdam := DamCalc(choices.0, d.h1, d.h2).value;
        var vdam := DamCalc(choices.1, d.v1, d.v2).value;
        var winner := WinningCheck(heroText, villainText, hdam, vdam);
        Ok(Round(Row(names.0, choices.0, hdam, names.1, choices.1, vdam), winner))
  }

  /**
   * The counters after a resolved round: `win_loss_count` runs unless the
   * winner string is TIE, matching the winner against the stripped names.
   */
  function Settle(c: Score, round: Round): (r: Score)
    ensures Balanced(c) ==> Balanced(r)
    ensures round.winner == TIE ==> r == c
    ensures round.winner != TIE && round.winner == round.row.hname ==>
      r == c.(hwins := c.hwins + 1, vlosses := c.vlosses + 1)
    ensures round.winner != TIE && round.winner != round.row.hname && round.winner == round.row.vname ==>
      r == c.(vwins := c.vwins + 1, hlosses := c.hlosses + 1)
    ensures round.winner != round.row.hname && round.winner != round.row.vname ==> r == c
    ensures r.hwins + r.vwins == c.hwins + c.vwins + (if Decisive(round) then 1 else 0)
  {
    if round.winner != TIE then Tally(c, round.winner, round.row.hname, round.row.vname) else c
  }

  /** The round credits someone: its winner is not TIE and is one of the names. */
  predicate Decisive(round: Round) {
    round.winner != TIE && (round.winner == round.row.hname || round.winner == round.row.vname)
  }

  /** The counters after a series of resolved rounds, from `c`. */
  function Replay(c: Score, rounds: seq<Round>): Score
    decreases |rounds|
  {
    if rounds == [] then c else Replay(Settle(c, rounds[0]), rounds[1..])
  }

  function CountDecisive(rounds: seq<Round>): nat
    decreases |rounds|
  {
    if rounds == [] then 0 else (if Decisive(rounds[0]) then 1 else 0) + CountDecisive(rounds[1..])
  }

  /**
   * From the all-zero counters of a new window, any series of rounds keeps
   * wins and losses paired, and the wins add up to the rounds that credit someone.
   */
  lemma {:induction false} ReplayBalanced(c: Score, rounds: seq<Round>)
    requires Balanced(c)
    ensures Balanced(Replay(c, rounds))
    ensures Replay(c, rounds).hwins + Replay(c, rounds).vwins == c.hwins + c.vwins + CountDecisive(rounds)
    decreases |rounds|
  {
    if rounds != [] {
      ReplayBalanced(Settle(c, rounds[0]), rounds[1..]);
    }
  }

  /** A round in which both sides deal equal damage changes no counter. */
  lemma EqualDamageChangesNothing(heroText: string, villainText: string, h: Radios, v: Radios, d: Draws, c: Score)
    requires DrawsFit(h, v, d)
    requires Resolve(heroText, villainText, h, v, d).Ok?
    requires Resolve(heroText, villainText, h, v, d).value.row.hdam == Resolve(heroText, villainText, h, v, d).value.row.vdam
    ensures Settle(c, Resolve(heroText, villainText, h, v, d).value) == c
  {
  }

  /**
   * With distinct stripped names other than "tie", the side that deals more
   * damage gets one more win and the other side one more loss.
   */
  lemma StrongerSideCredited(heroText: string, villainText: string, h: Radios, v: Radios, d: Draws, c: Score)
    requires DrawsFit(h, v, d)
    requires Strip(heroText) != Strip(villainText) && Strip(heroText) != TIE && Strip(villainText) != TIE
    requires Resolve(heroText, villainText, h, v, d).Ok?
    ensures var row := Resolve(heroText, villainText, h, v, d).value.row;
      row.hdam > row.vdam ==>
        Settle(c, Resolve(heroText, villainText, h, v, d).value) == c.(hwins := c.hwins + 1, vlosses := c.vlosses + 1)
    ensures var row := Resolve(heroText, villainText, h, v, d).value.row;
      row.vdam > row.hdam ==>
        Settle(c, Resolve(heroText, villainText, h, v, d).value) == c.(vwins := c.vwins + 1, hlosses := c.hlosses + 1)
  {
  }

  /**
   * With equal stripped names, the hero is credited even when the villain
   * dealt more damage: `win_loss_count` tests the hero name first.
   */
  lemma SameNamesCreditHero(heroText: string, villainText: string, h: Radios, v: Radios, d: Draws, c: Score)
    requires DrawsFit(h, v, d)
    requires Strip(heroText) == Strip(villainText) && Strip(heroText) != TIE
    requires Resolve(heroText, villainText, h, v, d).Ok?
    requires Resolve(heroText, villainText, h, v, d).value.row.vdam > Resolve(heroText, villainText, h, v, d).value.row.hdam
    ensures Settle(c, Resolve(heroText, villainText, h, v, d).value).hwins == c.hwins + 1
    ensures Settle(c, Resolve(heroText, villainText, h, v, d).value).vwins == c.vwins
  {
  }

  /** A hero named "tie" who deals more damage is treated as a tie: no counter changes. */
  lemma TieNamedWinnerUncredited(heroText: string, villainText: string, h: Radios, v: Radios, d: Draws, c: Score)
    requires DrawsFit(h, v, d)
    requires Strip(heroText) == TIE
    requires Resolve(heroText, villainText, h, v, d).Ok?
    requires Resolve(heroText, villainText, h, v, d).value.row.hdam > Resolve(heroText, villainText, h, v, d).value.row.vdam
    ensures Settle(c, Resolve(heroText, villainText, h, v, d).value) == c
  {
  }

  /**
   * Hero "Zed" with a sword against villain "Roc" with a bow: draws 10*2 and
   * 5*2 give the row `Zed,sword,20,Roc,bow,10` and credit the hero.
   */
  lemma ZedBeatsRoc(c: Score)
    ensures Resolve(" Zed", "Roc ", Radios(true, false, false), Radios(false, true, false), Draws(10, 2, 5, 2))
      == Ok(Round(Row("Zed", SWORD, 20, "Roc", BOW, 10), "Zed"))
    ensures Settle(c, Round(Row("Zed", SWORD, 20, "Roc", BOW, 10), "Zed"))
      == c.(hwins := c.hwins + 1, vlosses := c.vlosses + 1)
  {
    assert Strip(" Zed") == "Zed" by {
      assert SkipForward(" Zed", 0) == 1;
      assert SkipBackward(" Zed", 1, 4) == 4;
      assert " Zed"[1..4] == "Zed";
    }
    assert Strip("Roc ") == "Roc" by {
      assert SkipForward("Roc ", 0) == 0;
      assert SkipBackward("Roc ", 0, 4) == 3;
      assert "Roc "[0..3] == "Roc";
    }
  }

  /** A blank hero name is reported before an over-long villain name or a missing weapon. */
  lemma BlankNameReportedFirst(heroText: string, villainText: string, h: Radios, v: Radios, d: Draws)
    requires DrawsFit(h, v, d)
    requires AllSpace(heroText)
    ensures Resolve(heroText, villainText, h, v, d) == Err(NameShortError)
  {
  }

  // ----------------------------------------------------------- the window

  /** The counter fields of the `Logic` window. */
  class ScoreBoard {
    var hwins: nat
    var hlosses: nat
    var vwins: nat
    var vlosses: nat

    ghost predicate Valid()
      reads this
    {
      Balanced(Snapshot())
    }

    function Snapshot(): Score
      reads this
    {
      Score(hwins, hlosses, vwins, vlosses)
    }

    /** A new window starts with every counter at zero. */
    constructor ()
      ensures Valid() && Snapshot() == Score(0, 0, 0, 0)
    {
      hwins := 0;
      hlosses := 0;
      vwins := 0;
      vlosses := 0;
    }

    /** `win_loss_count`: credits the side whose stripped name equals `winner`. */
    method WinLossCount(winner: string, heroText: string, villainText: string)
      modifies this
      ensures Snapshot() == Tally(old(Snapshot()), winner, Strip(heroText), Strip(villainText))
      ensures old(Valid()) ==> Valid()
    {
      if winner == Strip(heroText) {
        hwins := hwins + 1;
        vlosses := vlosses + 1;
      } else if winner == Strip(villainText) {
        vwins := vwins + 1;
        hlosses := hlosses + 1;
      }
    }

    /**
     * `final_statement`: on a failed check reports its kind and changes
     * nothing; otherwise credits the winner unless the round is a tie and
     * returns `log` with the round's row appended.
     */
    method FinalStatement(heroText: string, villainText: string, h: Radios, v: Radios, d: Draws, log: seq<Row>)
      returns (r: Result<seq<Row>>)
      requires Valid()
      requires DrawsFit(h, v, d)
      modifies this
      ensures Valid()
      ensures match Resolve(heroText, villainText, h, v, d)
        case Err(e) => r == Err(e) && Snapshot() == old(Snapshot())
        case Ok(round) => r == Ok(log + [round.row]) && Snapshot() == Settle(old(Snapshot()), round)
    {
      var names := NameCheck(heroText, villainText);
      if names.Err? {
        return Err(names.error);
      }
      var choices := WeaponCheck(h, v);
      if choices.Err? {
        return Err(choices.error);
      }
      var (hname, vname) := names.value;
      var (hchoice, vchoice) := choices.value;
      var hdam := DamCalc(hchoice, d.h1, d.h2).value;
      var vdam := DamCalc(vchoice, d.v1, d.v2).value;
      var winner := WinningCheck(heroText, villainText, hdam, vdam);
      if winner != TIE {
        WinLossCount(winner, heroText, villainText);
      }
      r := Ok(log + [Row(hname, hchoice, hdam, vname, vchoice, vdam)]);
    }
  }
}
