/** The root of the imposter game (`src/imposter/ImposterGame.tsx`). It has
    the same shape as the spin root, with one more screen, `Started`, that
    no entry mode leads to and that the render switch has no arm for. */
module ImposterGame {
  import opened GameEntry

  datatype ImposterSessionScreen = Lobby | Create | Game | Started

  datatype Component = CreateScreen | GameScreen | LobbyScreen

  /** `getInitialScreen()`. */
  function InitialScreen(mode: GameEntryMode): ImposterSessionScreen {
    match mode
    case Creator => Create
    case Host => Game
    case Participant => Lobby
    case Member => Lobby
  }

  /** The render `switch (screen)`; `Started` falls to the default arm. */
  function Render(screen: ImposterSessionScreen): Component {
    match screen
    case Create => CreateScreen
    case Game => GameScreen
    case Lobby => LobbyScreen
    case Started => LobbyScreen
  }

  datatype Root = Root(screen: ImposterSessionScreen, mounted: bool)

  /** The mount effect: only the first run sets the screen. */
  function Mount(r: Root, mode: GameEntryMode): Root {
    if r.mounted then r else Root(InitialScreen(mode), true)
  }

  /** Creators start on the create screen, hosts in the game, everybody else
      in the lobby; no entry mode starts on `Started`. */
  lemma InitialScreenCases(mode: GameEntryMode)
    ensures InitialScreen(mode) == Create <==> mode == Creator
    ensures InitialScreen(mode) == Game <==> mode == Host
    ensures InitialScreen(mode) == Lobby <==> mode != Creator && mode != Host
    ensures InitialScreen(mode) != Started
  {
  }

  /** `Started` and `Lobby` render the same lobby component; every other
      screen has its own. */
  lemma RenderCases(a: ImposterSessionScreen, b: ImposterSessionScreen)
    ensures Render(Started) == LobbyScreen
    ensures Render(a) == Render(b) <==> a == b || (a in {Lobby, Started} && b in {Lobby, Started})
  {
  }

  /** The first render after mounting shows the component of the entry mode. */
  lemma MountedComponent(r: Root, mode: GameEntryMode)
    requires !r.mounted
    ensures var c := Render(Mount(r, mode).screen);
      && (mode == Creator ==> c == CreateScreen)
      && (mode == Host ==> c == GameScreen)
      && (mode != Creator && mode != Host ==> c == LobbyScreen)
  {
  }

  /** Mounting happens once: a later change of entry mode does not move the screen. */
  lemma MountOnce(r: Root, first: GameEntryMode, later: GameEntryMode)
    ensures Mount(Mount(r, first), later) == Mount(r, first)
    ensures !r.mounted ==> Mount(r, first).screen == InitialScreen(first)
  {
  }
}
