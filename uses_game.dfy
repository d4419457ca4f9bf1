/** uses_game.py: objects that hold a reference to the game, resolved from
    either the game itself or another such object. */
module UsesGameMixin {
  import opened Util

  /** A Game object (always truthy). */
  datatype Game = Game(id: nat)

  class UsesGame {
    var game: Option<Game>

    /** `cls.__new__(cls)`: `game` still reads the class attribute, which
        is None on UsesGame itself and may be set by a subclass. */
    constructor (classGame: Option<Game>)
      ensures game == classGame
    {
      game := classGame;
    }

    /** set_game. A UsesGame argument stands for its own game; the result is
        that game if there is one, otherwise the game already held (or the
        class's). With `strict`, ending without a game raises RuntimeError,
        after the assignment. */
    method SetGame(arg: Option<Game>, holder: Option<UsesGame>, strict: bool) returns (out: Outcome)
      requires arg.None? || holder.None?
      modifies this`game
      ensures var given := if holder.Some? then old(holder.value.game) else arg;
        game == OptionOr(given, old(game))
      ensures out == Fail(RuntimeError) <==> strict && game.None?
      ensures out == Pass || out == Fail(RuntimeError)
    {
      var given := if holder.Some? then holder.value.game else arg;
      game := OptionOr(given, game);
      if strict && game.None? {
        return Fail(RuntimeError);
      }
      return Pass;
    }

    /** __init__(game, strict=True): set_game with the given strictness. */
    method Init(arg: Option<Game>, holder: Option<UsesGame>, strict: bool) returns (out: Outcome)
      requires arg.None? || holder.None?
      modifies this`game
      ensures var given := if holder.Some? then old(holder.value.game) else arg;
        game == OptionOr(given, old(game))
      ensures out == Fail(RuntimeError) <==> strict && game.None?
    {
      out := SetGame(arg, holder, strict);
    }
  }

  /** The unit tests of set_game, as one scenario: a game given directly or
      through a holder is taken; None (directly or through an empty holder)
      raises RuntimeError under strict and leaves None otherwise; a class
      attribute is kept when None is passed. */
  method SetGameScenarios(g: Game, h: Game) returns (direct: Option<Game>, viaHolder: Option<Game>,
      strictNone: Outcome, strictEmptyHolder: Outcome, lenient: Option<Game>, lenientOut: Outcome, fromClass: Option<Game>)
    ensures direct == Some(g) && viaHolder == Some(h)
    ensures strictNone == Fail(RuntimeError) && strictEmptyHolder == Fail(RuntimeError)
    ensures lenient == None && lenientOut == Pass
    ensures fromClass == Some(g)
  {
    var a := new UsesGame(None);
    var o1 := a.SetGame(Some(g), None, true);
    direct := a.game;

    var holder := new UsesGame(None);
    holder.game := Some(h);
    var b := new UsesGame(None);
    var o2 := b.SetGame(None, Some(holder), true);
    viaHolder := b.game;

    var c := new UsesGame(None);
    strictNone := c.SetGame(None, None, true);

    var empty := new UsesGame(None);
    var d := new UsesGame(None);
    strictEmptyHolder := d.SetGame(None, Some(empty), true);

    var e := new UsesGame(None);
    lenientOut := e.SetGame(None, Some(empty), false);
    lenient := e.game;

    var sub := new UsesGame(Some(g));
    var o3 := sub.SetGame(None, None, true);
    fromClass := sub.game;
  }
}
