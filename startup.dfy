/**
 * Start-up of the game: the command-line scan of `PongC_Init`, the codes
 * `PongC_Init` returns, and the exit code of `main`. The SDL and SDL_ttf
 * calls are represented only by whether each of them succeeded.
 */
module Startup {

  /** The global option flags (`PongC_RenderText`, `PongC_Resizable`, ...). */
  datatype Flags = Flags(
    renderText: bool,
    resizable: bool,
    vsync: bool,
    collisionRendering: bool,
    noPlayer1: bool,
    noPlayer2: bool,
    mousePlayer1: bool,
    mousePlayer2: bool)

  /** The flags' values before any argument is read. */
  const Defaults := Flags(true, false, true, false, false, false, false, false)

  const HelpOption := "--help"

  /** The arguments after the program name (`argv[1..argc-1]`). */
  function Args(argv: seq<string>): seq<string> {
    if |argv| <= 1 then [] else argv[1..]
  }

  /** Some argument after the program name is `--help`. */
  predicate HelpRequested(argv: seq<string>) {
    HelpOption in Args(argv)
  }

  /**
   * The arguments the scan acts on before it returns: the longest prefix
   * of `args` without `--help`, which is all of `args` when `--help` does
   * not occur and otherwise stops right before its first occurrence.
   */
  function ScannedArgs(args: seq<string>): (r: seq<string>)
    ensures r <= args && HelpOption !in r
    ensures HelpOption in args ==> |r| < |args| && args[|r|] == HelpOption
    ensures HelpOption !in args ==> r == args
  {
    if args == [] || args[0] == HelpOption then []
    else [args[0]] + ScannedArgs(args[1..])
  }

  /**
   * The scanned prefix ends at the first `--help`: whatever comes after it
   * is never read.
   */
  lemma {:induction false} ScannedArgsStopAtFirstHelp(args: seq<string>, k: nat)
    requires k < |args| && args[k] == HelpOption && HelpOption !in args[..k]
    ensures ScannedArgs(args) == args[..k]
  {
  }

  /**
   * The flags after the scan has acted on `args`, starting from `init`:
   * each option sets its own flag exactly when it occurs, wherever and
   * however often; other arguments change nothing.
   */
  function FlagsAfter(init: Flags, args: seq<string>): Flags {
    Flags(
      init.renderText && "--no-text" !in args,
      init.resizable || "--resizable" in args,
      init.vsync && "--no-vsync" !in args,
      init.collisionRendering || "--render-collisions" in args,
      init.noPlayer1 || "--no-player1" in args,
      init.noPlayer2 || "--no-player2" in args,
      init.mousePlayer1 || "--mouse-player1" in args,
      init.mousePlayer2 || "--mouse-player2" in args)
  }

  /** Scanning `a` and then `x` is scanning `a + [x]`. */
  lemma FlagsAfterAppend(init: Flags, a: seq<string>, x: string)
    ensures FlagsAfter(init, a + [x]) == FlagsAfter(FlagsAfter(init, a), [x])
  {
  }

  /** Scanning the single argument `x` sets at most the one flag `x` names. */
  lemma FlagsAfterOne(f: Flags, x: string)
    ensures FlagsAfter(f, [x]) == Flags(
              f.renderText && x != "--no-text",
              f.resizable || x == "--resizable",
              f.vsync && x != "--no-vsync",
              f.collisionRendering || x == "--render-collisions",
              f.noPlayer1 || x == "--no-player1",
              f.noPlayer2 || x == "--no-player2",
              f.mousePlayer1 || x == "--mouse-player1",
              f.mousePlayer2 || x == "--mouse-player2")
  {
  }

  /**
   * One pass of the argument loop for an argument other than `--help`:
   * the flag that `arg` names, if any, is set, as `PongC_Init` sets its
   * global flags one `if` at a time.
   */
  method ApplyOption(f: Flags, arg: string) returns (g: Flags)
    ensures g.renderText == (f.renderText && arg != "--no-text")
    ensures g.resizable == (f.resizable || arg == "--resizable")
    ensures g.vsync == (f.vsync && arg != "--no-vsync")
    ensures g.collisionRendering == (f.collisionRendering || arg == "--render-collisions")
    ensures g.noPlayer1 == (f.noPlayer1 || arg == "--no-player1")
    ensures g.noPlayer2 == (f.noPlayer2 || arg == "--no-player2")
    ensures g.mousePlayer1 == (f.mousePlayer1 || arg == "--mouse-player1")
    ensures g.mousePlayer2 == (f.mousePlayer2 || arg == "--mouse-player2")
    ensures g == FlagsAfter(f, [arg])
  {
    var renderText, resizable, vsync, collisionRendering := f.renderText, f.resizable, f.vsync, f.collisionRendering;
    var noPlayer1, noPlayer2, mousePlayer1, mousePlayer2 := f.noPlayer1, f.noPlayer2, f.mousePlayer1, f.mousePlayer2;
    if arg == "--no-text" {
      renderText := false;
    }
    if arg == "--resizable" {
      resizable := true;
    }
    if arg == "--no-vsync" {
      vsync := false;
    }
    if arg == "--render-collisions" {
      collisionRendering := true;
    }
    if arg == "--no-player1" {
      noPlayer1 := true;
    }
    if arg == "--no-player2" {
      noPlayer2 := true;
    }
    if arg == "--mouse-player1" {
      mousePlayer1 := true;
    }
    if arg == "--mouse-player2" {
      mousePlayer2 := true;
    }
    g := Flags(renderText, resizable, vsync, collisionRendering, noPlayer1, noPlayer2, mousePlayer1, mousePlayer2);
    FlagsAfterOne(f, arg);
  }

  /**
   * The argument loop of `PongC_Init`: scan `argv` after the program name,
   * set the flag each option names, and stop at `--help` (for which the
   * caller returns 2).
   */
  method ParseArguments(argv: seq<string>, init: Flags) returns (help: bool, flags: Flags)
    ensures help == HelpRequested(argv)
    ensures flags == FlagsAfter(init, ScannedArgs(Args(argv)))
  {
    var args := Args(argv);  // args[i] is argv[i + 1]
    flags := init;
    var i := 0;
    while i < |args|
      invariant 0 <= i <= |args|
      invariant HelpOption !in args[..i]
      invariant flags == FlagsAfter(init, args[..i])
    {
      var arg := args[i];
      if arg == HelpOption {
        ScannedArgsStopAtFirstHelp(args, i);
        return true, flags;
      }
      flags := ApplyOption(flags, arg);
      FlagsAfterAppend(init, args[..i], arg);
      assert args[..i + 1] == args[..i] + [arg];
      i := i + 1;
    }
    assert args[..i] == args;
    help := false;
  }

  /** Whether each backend call of `PongC_Init` succeeded. */
  datatype Backend = Backend(sdl: bool, ttf: bool, font: bool, window: bool, renderer: bool)

  /**
   * The value `PongC_Init` returns: 2 for `--help`, 0 on success, and a
   * distinct negative code for the first failing stage (SDL -2, SDL_ttf -3,
   * window -4, renderer -5). A missing font is not a failure.
   */
  function InitCode(help: bool, b: Backend): (code: int)
    ensures code == 2 <==> help
    ensures code == 0 <==> !help && b.sdl && b.ttf && b.window && b.renderer
    ensures code == -2 <==> !help && !b.sdl
    ensures code == -3 <==> !help && b.sdl && !b.ttf
    ensures code == -4 <==> !help && b.sdl && b.ttf && !b.window
    ensures code == -5 <==> !help && b.sdl && b.ttf && b.window && !b.renderer
  {
    if help then 2
    else if !b.sdl then -2
    else if !b.ttf then -3
    else if !b.window then -4
    else if !b.renderer then -5
    else 0
  }

  /**
   * The exit code of `main` once the game loop has ended: 0 after a
   * successful start, -1 for every other start-up result, help included.
   */
  function MainExit(initCode: int): (exit: int)
    ensures exit == 0 <==> initCode == 0
    ensures exit != 0 ==> exit == -1
  {
    if initCode != 0 then -1 else 0
  }
}
