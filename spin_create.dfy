/** The create screen of the spin game (`handleCreateGame` and the theme
    effect of `src/SpinGame/screens/CreateScreen/CreateScreen.tsx`). The
    guards are a pure decision; the `loading` latch and the session setters
    are state on an object, and the handler is split at its one `await`:
    `HandleCreateGame` runs up to the service call and `ResumeCreateGame`
    consumes the service's answer. */
module SpinCreate {
  import opened Wrappers
  import opened GameEntry
  import opened SpinGame

  datatype GameCategory = All | Vors | Ladies | Boys

  /** The game types the screen can be opened for; the source's enum is not
      part of this model, and every type other than duel and roulette is
      treated alike. */
  datatype GameType = Quiz | Duel | Roulette | OtherGame

  datatype Color = Beige | BeigeLight | SkyBlue | SkyBlueLight

  datatype Icon = RefreshCw | RotateCw

  datatype Theme = Theme(themeColor: Color, secondaryThemeColor: Color, featherIcon: Icon)

  /** The theme state as the screen creates it. */
  const InitialTheme := Theme(BeigeLight, Beige, RefreshCw)

  /** The effect on `gameType`: duel and roulette set all three fields,
      any other type leaves the theme as it was. */
  function ThemeFor(gameType: GameType, current: Theme): Theme {
    match gameType
    case Duel => Theme(Beige, BeigeLight, RefreshCw)
    case Roulette => Theme(SkyBlue, SkyBlueLight, RotateCw)
    case _ => current
  }

  /** The form: a name and a category that starts out unchosen (`""`). */
  datatype CreateRequest = CreateRequest(name: string, category: Option<GameCategory>)

  /** The arguments of `gameService().createInteractiveGame(pseudoId, gameType, request)`. */
  datatype CreateCall = CreateCall(pseudoId: string, gameType: GameType, request: CreateRequest)

  /** What the service answers on success. */
  datatype CreatedGame = CreatedGame(key: string, hubAddress: string)

  datatype Modal = Info(text: string) | Error(text: string)

  const NeedCategory := "Du må velge kategori"
  const NeedName := "Spillet må ha ett navn"
  const NoPseudoId := "En feil har skjedd, forsøk å åpne appen på nytt"

  /** What the guards decide. */
  datatype Guard = Busy | Refuse(modal: Modal) | Proceed(pseudoId: string)

  /** The guards, in source order: latch, category, name, pseudo id. */
  function CheckCreate(loading: bool, request: CreateRequest, pseudoId: Option<string>): Guard {
    if loading then Busy
    else if request.category.None? then Refuse(Info(NeedCategory))
    else if request.name == "" then Refuse(Info(NeedName))
    else if !Truthy(pseudoId) then Refuse(Error(NoPseudoId))
    else Proceed(pseudoId.value)
  }

  /** The guards let a press through exactly when nothing is pending, a
      category and a name are given and the user has a pseudo id. */
  lemma ProceedIff(loading: bool, request: CreateRequest, pseudoId: Option<string>)
    ensures CheckCreate(loading, request, pseudoId).Proceed? <==>
              !loading && request.category.Some? && request.name != "" && Truthy(pseudoId)
    ensures CheckCreate(loading, request, pseudoId).Proceed? ==>
              CheckCreate(loading, request, pseudoId).pseudoId == pseudoId.value
  {
  }

  /** The refusals come in source order: the category before the name,
      both as info, then the pseudo id as an error. */
  lemma RefusalOrder(request: CreateRequest, pseudoId: Option<string>)
    ensures request.category.None? ==> CheckCreate(false, request, pseudoId) == Refuse(Info(NeedCategory))
    ensures request.category.Some? && request.name == "" ==>
              CheckCreate(false, request, pseudoId) == Refuse(Info(NeedName))
    ensures request.category.Some? && request.name != "" && !Truthy(pseudoId) ==>
              CheckCreate(false, request, pseudoId) == Refuse(Error(NoPseudoId))
    ensures CheckCreate(true, request, pseudoId) == Busy
  {
  }

  /** Duel and roulette pick their own themes; every other type keeps the current one. */
  lemma ThemeCases(gameType: GameType, current: Theme)
    ensures ThemeFor(Duel, current) == Theme(Beige, BeigeLight, RefreshCw)
    ensures ThemeFor(Roulette, current) == Theme(SkyBlue, SkyBlueLight, RotateCw)
    ensures gameType != Duel && gameType != Roulette ==> ThemeFor(gameType, current) == current
    ensures ThemeFor(gameType, ThemeFor(gameType, current)) == ThemeFor(gameType, current)
  {
  }

  /** The screen's state and the session fields its handler sets. */
  class CreateScreenState {
    var loading: bool
    var theme: Theme
    var gameKey: string
    var hubAddress: string
    var entryMode: GameEntryMode
    var screen: SpinSessionScreen
    var modals: seq<Modal>

    constructor(entryMode0: GameEntryMode, screen0: SpinSessionScreen)
      ensures !loading && theme == InitialTheme && modals == []
      ensures gameKey == "" && hubAddress == "" && entryMode == entryMode0 && screen == screen0
    {
      loading := false;
      theme := InitialTheme;
      gameKey := "";
      hubAddress := "";
      entryMode := entryMode0;
      screen := screen0;
      modals := [];
    }

    /** The theme effect, run when `gameType` changes. */
    method ApplyTheme(gameType: GameType)
      modifies this
      ensures theme == ThemeFor(gameType, old(theme))
      ensures unchanged(`loading, `gameKey, `hubAddress, `entryMode, `screen, `modals)
    {
      match gameType
      case Duel =>
        theme := theme.(secondaryThemeColor := BeigeLight);
        theme := theme.(themeColor := Beige);
        theme := theme.(featherIcon := RefreshCw);
      case Roulette =>
        theme := theme.(secondaryThemeColor := SkyBlueLight);
        theme := theme.(themeColor := SkyBlue);
        theme := theme.(featherIcon := RotateCw);
      case _ =>
    }

    /** `handleCreateGame` up to its `await`: returns the service call it
        issues, if the guards let it through. */
    method HandleCreateGame(request: CreateRequest, pseudoId: Option<string>, gameType: GameType)
      returns (call: Option<CreateCall>)
      modifies this
      ensures unchanged(`theme, `gameKey, `hubAddress, `entryMode, `screen)
      ensures match CheckCreate(old(loading), request, pseudoId)
        case Busy => call.None? && loading && modals == old(modals)
        case Refuse(m) => call.None? && !loading && modals == old(modals) + [m]
        case Proceed(p) => call == Some(CreateCall(p, gameType, request)) && loading && modals == old(modals)
    {
      if loading {
        return None;
      }
      if request.category.None? {
        modals := modals + [Info(NeedCategory)];
        return None;
      }
      if request.name == "" {
        modals := modals + [Info(NeedName)];
        return None;
      }
      if !Truthy(pseudoId) {
        modals := modals + [Error(NoPseudoId)];
        return None;
      }
      loading := true;
      return Some(CreateCall(pseudoId.value, gameType, request));
    }

    /** `handleCreateGame` after its `await`, given the service's answer. */
    method ResumeCreateGame(reply: Result<CreatedGame>)
      modifies this
      ensures !loading && theme == old(theme)
      ensures reply.Err? ==> && modals == old(modals) + [Error(reply.error)]
                             && unchanged(`gameKey, `hubAddress, `entryMode, `screen)
      ensures reply.Ok? ==> && modals == old(modals)
                            && gameKey == reply.value.key && hubAddress == reply.value.hubAddress
                            && entryMode == Creator && screen == Lobby
    {
      if reply.Err? {
        modals := modals + [Error(reply.error)];
        loading := false;
        return;
      }
      gameKey := reply.value.key;
      hubAddress := reply.value.hubAddress;
      entryMode := Creator;
      screen := Lobby;
      loading := false;
    }
  }
}
