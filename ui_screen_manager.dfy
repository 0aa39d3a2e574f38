/**
 * The `UIScreenManager` visual element: three visibility flags, each paired
 * with a lazily resolved screen element that is cached once found. Whenever
 * an element is resolved its display equals `flag ? Flex : None`.
 *
 * The lookup `this.Q(name)` is an oracle: each getter receives the element
 * the lookup would return (`null` when the tree has no such element yet).
 */
module UI {
  import opened Display

  /** A visual element of the UI tree; only its `style.display` matters here. */
  class ScreenElement {
    var display: DisplayStyle
  }

  /** Names of the three UXML attributes and their declared default values. */
  const MenuScreenAttribute := "show-menu-screen"
  const GameScreenAttribute := "show-game-screen"
  const EndScreenAttribute := "show-end-screen"
  const DefaultShowMenuScreen := true
  const DefaultShowGameScreen := false
  const DefaultShowEndScreen := false

  /** `GetValueFromBag`: the attribute's value when the bag holds it, its default otherwise. */
  function ValueFromBag(bag: map<string, bool>, name: string, default: bool): bool
  {
    if name in bag then bag[name] else default
  }

  /** A resolved element shows exactly when its flag is set. */
  ghost predicate Synced(element: ScreenElement?, flag: bool)
    reads element
  {
    element != null ==> element.display == DisplayFor(flag)
  }

  /** The resolved elements among the three are different objects. */
  predicate Distinct(menu: ScreenElement?, game: ScreenElement?, end: ScreenElement?)
  {
    (menu != null ==> menu != game && menu != end) && (game != null ==> game != end)
  }

  /** The element a getter ends up with: the cached one, or else what the lookup finds. */
  function Resolve(cached: ScreenElement?, lookup: ScreenElement?): ScreenElement?
  {
    if cached != null then cached else lookup
  }

  class UIScreenManager {
    var showMenuScreen: bool
    var showGameScreen: bool
    var showEndScreen: bool

    var menuScreen: ScreenElement?
    var gameScreen: ScreenElement?
    var endScreen: ScreenElement?

    /** Every resolved screen element displays according to its flag. */
    ghost predicate Valid()
      reads this, menuScreen, gameScreen, endScreen
    {
      Synced(menuScreen, showMenuScreen) &&
      Synced(gameScreen, showGameScreen) &&
      Synced(endScreen, showEndScreen) &&
      Distinct(menuScreen, gameScreen, endScreen)
    }

    /** A fresh manager: every flag false, nothing resolved yet. */
    constructor ()
      ensures Valid()
      ensures !showMenuScreen && !showGameScreen && !showEndScreen
      ensures menuScreen == null && gameScreen == null && endScreen == null
    {
      showMenuScreen, showGameScreen, showEndScreen := false, false, false;
      menuScreen, gameScreen, endScreen := null, null, null;
    }

    /**
     * The UXML traits' `Init`: each flag is set through its setter to the
     * attribute's value, or to its default (menu shown, game and end hidden).
     */
    method InitFromUxml(bag: map<string, bool>)
      requires Valid()
      modifies this`showMenuScreen, this`showGameScreen, this`showEndScreen, menuScreen, gameScreen, endScreen
      ensures Valid()
      ensures showMenuScreen == ValueFromBag(bag, MenuScreenAttribute, DefaultShowMenuScreen)
      ensures showGameScreen == ValueFromBag(bag, GameScreenAttribute, DefaultShowGameScreen)
      ensures showEndScreen == ValueFromBag(bag, EndScreenAttribute, DefaultShowEndScreen)
      ensures bag == map[] ==> showMenuScreen && !showGameScreen && !showEndScreen
    {
      SetShowMenuScreen(ValueFromBag(bag, MenuScreenAttribute, DefaultShowMenuScreen));
      SetShowGameScreen(ValueFromBag(bag, GameScreenAttribute, DefaultShowGameScreen));
      SetShowEndScreen(ValueFromBag(bag, EndScreenAttribute, DefaultShowEndScreen));
    }

    /**
     * The `showMenuScreen` setter: a no-op when the value is unchanged;
     * otherwise stores the flag and, if the menu element is resolved, syncs
     * its display. The other two screens are untouched.
     */
    method SetShowMenuScreen(value: bool)
      requires Valid()
      modifies this`showMenuScreen, menuScreen
      ensures Valid()
      ensures showMenuScreen == value
      ensures value == old(showMenuScreen) && menuScreen != null ==> unchanged(menuScreen)
      ensures menuScreen != null ==> menuScreen.display == DisplayFor(value)
      ensures gameScreen != null ==> gameScreen.display == old(gameScreen.display)
      ensures endScreen != null ==> endScreen.display == old(endScreen.display)
    {
      if value == showMenuScreen {
        return;
      }
      showMenuScreen := value;
      if menuScreen == null {
        return;
      }
      menuScreen.display := DisplayFor(showMenuScreen);
    }

    /** The `showGameScreen` setter; see SetShowMenuScreen. */
    method SetShowGameScreen(value: bool)
      requires Valid()
      modifies this`showGameScreen, gameScreen
      ensures Valid()
      ensures showGameScreen == value
      ensures value == old(showGameScreen) && gameScreen != null ==> unchanged(gameScreen)
      ensures gameScreen != null ==> gameScreen.display == DisplayFor(value)
      ensures menuScreen != null ==> menuScreen.display == old(menuScreen.display)
      ensures endScreen != null ==> endScreen.display == old(endScreen.display)
    {
      if value == showGameScreen {
        return;
      }
      showGameScreen := value;
      if gameScreen == null {
        return;
      }
      gameScreen.display := DisplayFor(showGameScreen);
    }

    /** The `showEndScreen` setter; see SetShowMenuScreen. */
    method SetShowEndScreen(value: bool)
      requires Valid()
      modifies this`showEndScreen, endScreen
      ensures Valid()
      ensures showEndScreen == value
      ensures value == old(showEndScreen) && endScreen != null ==> unchanged(endScreen)
      ensures endScreen != null ==> endScreen.display == DisplayFor(value)
      ensures menuScreen != null ==> menuScreen.display == old(menuScreen.display)
      ensures gameScreen != null ==> gameScreen.display == old(gameScreen.display)
    {
      if value == showEndScreen {
        return;
      }
      showEndScreen := value;
      if endScreen == null {
        return;
      }
      endScreen.display := DisplayFor(showEndScreen);
    }

    /**
     * `getMenuScreen`: the cached element if there is one (the lookup's
     * answer is then ignored); otherwise caches what the lookup found and,
     * when it found something, syncs its display to the flag. A failed
     * lookup leaves the cache empty, so a later call looks again.
     */
    method GetMenuScreen(lookup: ScreenElement?) returns (element: ScreenElement?)
      requires Valid()
      requires Distinct(Resolve(menuScreen, lookup), gameScreen, endScreen)
      modifies this`menuScreen, lookup
      ensures Valid()
      ensures element == menuScreen == Resolve(old(menuScreen), lookup)
      ensures old(menuScreen) != null && lookup != null ==> unchanged(lookup)
      ensures element != null ==> element.display == DisplayFor(showMenuScreen)
      ensures gameScreen != null ==> gameScreen.display == old(gameScreen.display)
      ensures endScreen != null ==> endScreen.display == old(endScreen.display)
    {
      if menuScreen != null {
        return menuScreen;
      }
      menuScreen := lookup;
      if menuScreen == null {
        return menuScreen;
      }
      menuScreen.display := DisplayFor(showMenuScreen);
      return menuScreen;
    }

    /** `getGameScreen`; see GetMenuScreen. */
    method GetGameScreen(lookup: ScreenElement?) returns (element: ScreenElement?)
      requires Valid()
      requires Distinct(menuScreen, Resolve(gameScreen, lookup), endScreen)
      modifies this`gameScreen, lookup
      ensures Valid()
      ensures element == gameScreen == Resolve(old(gameScreen), lookup)
      ensures old(gameScreen) != null && lookup != null ==> unchanged(lookup)
      ensures element != null ==> element.display == DisplayFor(showGameScreen)
      ensures menuScreen != null ==> menuScreen.display == old(menuScreen.display)
      ensures endScreen != null ==> endScreen.display == old(endScreen.display)
    {
      if gameScreen != null {
        return gameScreen;
      }
      gameScreen := lookup;
      if gameScreen == null {
        return gameScreen;
      }
      gameScreen.display := DisplayFor(showGameScreen);
      return gameScreen;
    }

    /** `getEndScreen`; see GetMenuScreen. */
    method GetEndScreen(lookup: ScreenElement?) returns (element: ScreenElement?)
      requires Valid()
      requires Distinct(menuScreen, gameScreen, Resolve(endScreen, lookup))
      modifies this`endScreen, lookup
      ensures Valid()
      ensures element == endScreen == Resolve(old(endScreen), lookup)
      ensures old(endScreen) != null && lookup != null ==> unchanged(lookup)
      ensures element != null ==> element.display == DisplayFor(showEndScreen)
      ensures menuScreen != null ==> menuScreen.display == old(menuScreen.display)
      ensures gameScreen != null ==> gameScreen.display == old(gameScreen.display)
    {
      if endScreen != null {
        return endScreen;
      }
      endScreen := lookup;
      if endScreen == null {
        return endScreen;
      }
      endScreen.display := DisplayFor(showEndScreen);
      return endScreen;
    }

    /** The first-layout callback: tries to resolve all three screens. */
    method FirstInit(menuLookup: ScreenElement?, gameLookup: ScreenElement?, endLookup: ScreenElement?)
      requires Valid()
      requires Distinct(Resolve(menuScreen, menuLookup), Resolve(gameScreen, gameLookup), Resolve(endScreen, endLookup))
      modifies this`menuScreen, this`gameScreen, this`endScreen, menuLookup, gameLookup, endLookup
      ensures Valid()
      ensures menuScreen == Resolve(old(menuScreen), menuLookup)
      ensures gameScreen == Resolve(old(gameScreen), gameLookup)
      ensures endScreen == Resolve(old(endScreen), endLookup)
    {
      var _ := GetMenuScreen(menuLookup);
      var _ := GetGameScreen(gameLookup);
      var _ := GetEndScreen(endLookup);
    }
  }
}
