/** The root of the spin game (`src/SpinGame/SpinGame.tsx`): the entry mode
    chooses the first screen, set once when the root mounts, and the current
    screen chooses the component rendered. */
module SpinGame {
  import opened GameEntry

  datatype SpinSessionScreen = Lobby | Create | Game

  datatype Component = CreateScreen | GameScreen | LobbyScreen

  /** `getInitialScreen()`. */
  function InitialScreen(mode: GameEntryMode): SpinSessionScreen {
    match mode
    case Creator => Create
    case Host => Game
    case Participant => Lobby
    case Member => Lobby
  }

  /** The render `switch (screen)`. */
  function Render(screen: SpinSessionScreen): Component {
    match screen
    case Create => CreateScreen
    case Game => GameScreen
    case Lobby => LobbyScreen
  }

  /** The screen slot of the root and whether its mount effect has run. */
  datatype Root = Root(screen: SpinSessionScreen, mounted: bool)

  /** The `useEffect(..., [])` that runs on mount: only the first run sets the screen. */
  function Mount(r: Root, mode: GameEntryMode): Root {
    if r.mounted then r else Root(InitialScreen(mode), true)
  }

  /** Creators start on the create screen, hosts in the game, everybody else in the lobby. */
  lemma InitialScreenCases(mode: GameEntryMode)
    ensures InitialScreen(mode) == Create <==> mode == Creator
    ensures InitialScreen(mode) == Game <==> mode == Host
    ensures InitialScreen(mode) == Lobby <==> mode != Creator && mode != Host
  {
  }

  /** Each screen has its own component, so the rendered component tells the screen. */
  lemma RenderInjective(a: SpinSessionScreen, b: SpinSessionScreen)
    ensures Render(a) == Render(b) <==> a == b
  {
  }

  /** The first render after mounting shows the component of the entry mode. */
  lemma MountedComponent(r: Root, mode: GameEntryMode)
    requires !r.mounted
    ensures var c := Render(Mount(r, mode).screen);
      && (mode == Creator ==> c == CreateScreen)
      && (mode == Host ==> c == GameScreen)
      && (mode != Creator && mode != Host ==> c == LobbyScreen)
  {
  }

  /** Mounting happens once: a later change of entry mode does not move the screen. */
  lemma MountOnce(r: Root, first: GameEntryMode, later: GameEntryMode)
    ensures Mount(Mount(r, first), later) == Mount(r, first)
    ensures !r.mounted ==> Mount(r, first).screen == InitialScreen(first)
  {
  }
}
