/**
 * The game-state machine driven once per timer tick by Game::update, the
 * session starters and the minimum window size enforced on reshape
 * (src/Game.cpp).
 *
 * What the game logic computes (lives and score after a step of play) and
 * which menu item the player entered are given as parameters; the state
 * machine is the part modelled.
 */
module Games {
  import opened Wrappers
  import GameUserInput
  import GameMenus

  datatype GameState = Playing | Paused | MainMenu | GameOver

  const CasualLives: int := 7
  const SandboxLives: int := 9999
  const MinWindowWidth: int := 800
  const MinWindowHeight: int := 600

  /** The part of the game a tick reads and writes; escFlag is the Esc key's pressed flag. */
  datatype Session = Session(state: GameState, lives: int, level: int, score: int, escFlag: bool)

  /** The menu whose entries were loaded last during a tick, if any. */
  datatype MenuLoad = NoLoad | MainLoad | PauseLoad

  /**
   * The outcome of a tick: the new session, the menu loaded, whether the Esc
   * flag was reset at least once and whether the program exits.
   */
  datatype Tick = Tick(session: Session, menu: MenuLoad, escReset: bool, exited: bool)

  /** The menu items that change the state. */
  const StateItems: set<string> := {"Play", "Sandbox", "Exit", "Resume", "Exit to Main Menu"}

  /** A new session: level 0, score 0 and the given lives; the Esc flag is kept. */
  function NewSession(s: Session, lives: int): (r: Session)
    ensures r.state == Playing && r.level == 0 && r.lives == lives && r.score == 0 && r.escFlag == s.escFlag
  {
    Session(Playing, lives, 0, 0, s.escFlag)
  }

  /**
   * The playing step: Esc pauses (and loads the pause menu), the game logic
   * sets lives and score, and negative lives end the game.
   */
  function PlayStage(s: Session, livesAfterLogic: int, scoreAfterLogic: int): Tick
  {
    if s.state != Playing then Tick(s, NoLoad, false, false)
    else
      var paused := s.escFlag;
      var state := if livesAfterLogic < 0 then GameOver else if paused then Paused else Playing;
      Tick(Session(state, livesAfterLogic, s.level, scoreAfterLogic, false),
           if paused then PauseLoad else NoLoad, paused, false)
  }

  /** The menu step, run when not playing: the entered item picks the next state. */
  function MenuStage(t: Tick, enteredItem: string): Tick
  {
    var s := t.session;
    if s.state == Playing then t
    else if enteredItem == "Play" then t.(session := NewSession(s, CasualLives))
    else if enteredItem == "Sandbox" then t.(session := NewSession(s, SandboxLives))
    else if enteredItem == "Exit" then t.(exited := true)
    else if enteredItem == "Resume" then t.(session := s.(state := Playing, escFlag := false), escReset := true)
    else if enteredItem == "Exit to Main Menu" then t.(session := s.(state := MainMenu), menu := MainLoad)
    else t
  }

  /** The resume step: Esc while paused returns to play. */
  function ResumeStage(t: Tick): Tick
  {
    var s := t.session;
    if !t.exited && s.state == Paused && s.escFlag then
      t.(session := s.(state := Playing, escFlag := false), escReset := true)
    else t
  }

  /** One tick of Game::update on the state machine. */
  function NextTick(s: Session, livesAfterLogic: int, scoreAfterLogic: int, enteredItem: string): Tick
  {
    ResumeStage(MenuStage(PlayStage(s, livesAfterLogic, scoreAfterLogic), enteredItem))
  }

  /**
   * Esc while playing pauses the game and loads the pause menu; the flag is
   * consumed, so the same tick does not resume.
   */
  lemma EscPauses(s: Session, lives: int, score: int, item: string)
    requires s.state == Playing && s.escFlag && lives >= 0 && item !in StateItems
    ensures var t := NextTick(s, lives, score, item);
      t.session.state == Paused && !t.session.escFlag && t.menu == PauseLoad && !t.exited
  {
  }

  /** Negative lives after the logic step end the game, even when Esc paused it in the same tick. */
  lemma NegativeLivesEndGame(s: Session, lives: int, score: int, item: string)
    requires s.state == Playing && lives < 0 && item !in StateItems
    ensures NextTick(s, lives, score, item).session.state == GameOver
  {
  }

  /** While play continues, the entered menu item is ignored and the logic's lives and score are kept. */
  lemma PlayingIgnoresMenu(s: Session, lives: int, score: int, item: string)
    requires s.state == Playing && !s.escFlag && lives >= 0
    ensures NextTick(s, lives, score, item) == Tick(s.(lives := lives, score := score), NoLoad, false, false)
  {
  }

  /** "Play" outside play starts a casual session. */
  lemma PlayStartsCasualSession(s: Session, lives: int, score: int)
    requires s.state != Playing
    ensures var t := NextTick(s, lives, score, "Play");
      t.session.state == Playing && t.session.level == 0 && t.session.lives == CasualLives &&
      t.session.score == 0 && !t.exited
  {
  }

  /** "Sandbox" outside play starts a sandbox session. */
  lemma SandboxStartsSandboxSession(s: Session, lives: int, score: int)
    requires s.state != Playing
    ensures var t := NextTick(s, lives, score, "Sandbox");
      t.session.state == Playing && t.session.level == 0 && t.session.lives == SandboxLives &&
      t.session.score == 0 && !t.exited
  {
  }

  /** "Resume" outside play clears the Esc flag and returns to play with lives and score kept. */
  lemma ResumeReturnsToPlay(s: Session, lives: int, score: int)
    requires s.state != Playing
    ensures var t := NextTick(s, lives, score, "Resume");
      t.session == s.(state := Playing, escFlag := false) && t.escReset && !t.exited
  {
  }

  /** "Exit to Main Menu" outside play shows the main menu. */
  lemma ExitToMainMenu(s: Session, lives: int, score: int)
    requires s.state != Playing
    ensures var t := NextTick(s, lives, score, "Exit to Main Menu");
      t.session == s.(state := MainMenu) && t.menu == MainLoad && !t.exited
  {
  }

  /** "Exit" outside play ends the program. */
  lemma ExitEndsProgram(s: Session, lives: int, score: int)
    requires s.state != Playing
    ensures NextTick(s, lives, score, "Exit").exited
  {
  }

  /** Esc while paused resumes play. */
  lemma EscResumes(s: Session, lives: int, score: int, item: string)
    requires s.state == Paused && s.escFlag && item !in StateItems
    ensures var t := NextTick(s, lives, score, item);
      t.session == s.(state := Playing, escFlag := false) && t.escReset && !t.exited
  {
  }

  /** The main menu and the game-over screen stay put until a state item is entered. */
  lemma MenusWaitForItem(s: Session, lives: int, score: int, item: string)
    requires s.state in {MainMenu, GameOver} && item !in StateItems
    ensures NextTick(s, lives, score, item) == Tick(s, NoLoad, false, false)
  {
  }

  /**
   * Game::reshape below the minimum size: the window size requested
   * instead, or None when the size is accepted.
   */
  function Reshape(w: int, h: int): (r: Option<(int, int)>)
    ensures r.None? <==> w >= MinWindowWidth && h >= MinWindowHeight
    ensures r.Some? ==> r.value.0 >= w && r.value.0 >= MinWindowWidth && (r.value.0 == w || r.value.0 == MinWindowWidth)
    ensures r.Some? ==> r.value.1 >= h && r.value.1 >= MinWindowHeight && (r.value.1 == h || r.value.1 == MinWindowHeight)
  {
    if w < MinWindowWidth || h < MinWindowHeight then
      Some((if w > MinWindowWidth then w else MinWindowWidth, if h > MinWindowHeight then h else MinWindowHeight))
    else None
  }

  /** The Esc flag table after a tick: only the Esc entry is written, and only when it was reset. */
  predicate EscFlagsAfter(now: map<GameUserInput.Key, bool>, before: map<GameUserInput.Key, bool>, reset: bool)
  {
    now == if reset then before[GameUserInput.Escape := false] else before
  }

  /** The menu entries after a tick: those of the menu loaded last, or the old ones. */
  predicate MenuAfter(now: seq<GameMenus.MenuEntry>, before: seq<GameMenus.MenuEntry>, load: MenuLoad)
  {
    match load
    case NoLoad => now == before
    case MainLoad => GameMenus.Texts(now) == GameMenus.MainMenuItems && GameMenus.SelectedExactly(now, 0)
    case PauseLoad => GameMenus.Texts(now) == GameMenus.PauseMenuItems && GameMenus.SelectedExactly(now, 0)
  }

  class Game {
    var gameState: GameState
    var playerLives: int
    var currentLevel: int
    var totalScore: int
    const gameMenu: GameMenus.GameMenu
    const input: GameUserInput.Input

    /** The state a tick reads, with the Esc flag taken from the input latches. */
    function Snapshot(): Session
      reads this, input
    {
      Session(gameState, playerLives, currentLevel, totalScore, input.IsKeyFlagPressed(GameUserInput.Escape))
    }

    constructor (gameMenu: GameMenus.GameMenu, input: GameUserInput.Input)
      ensures gameState == MainMenu && this.gameMenu == gameMenu && this.input == input
    {
      gameState := MainMenu;
      playerLives := 0;
      currentLevel := 0;
      totalScore := 0;
      this.gameMenu := gameMenu;
      this.input := input;
    }

    method StartNewCasualSession()
      modifies this`currentLevel, this`playerLives, this`totalScore
      ensures currentLevel == 0 && playerLives == CasualLives && totalScore == 0
    {
      currentLevel := 0;
      playerLives := CasualLives;
      totalScore := 0;
    }

    method StartNewSandboxSession()
      modifies this`currentLevel, this`playerLives, this`totalScore
      ensures currentLevel == 0 && playerLives == SandboxLives && totalScore == 0
    {
      currentLevel := 0;
      playerLives := SandboxLives;
      totalScore := 0;
    }

    /**
     * One tick. Returns true where the source calls exit(0), after which
     * nothing further happens.
     */
    method Update(livesAfterLogic: int, scoreAfterLogic: int, enteredItem: string) returns (exited: bool)
      requires input.Valid()
      modifies this`gameState, this`playerLives, this`currentLevel, this`totalScore, gameMenu, input`pressedFlagKeys
      ensures input.Valid()
      ensures var t := NextTick(old(Snapshot()), livesAfterLogic, scoreAfterLogic, enteredItem);
        Snapshot() == t.session && exited == t.exited &&
        EscFlagsAfter(input.pressedFlagKeys, old(input.pressedFlagKeys), t.escReset) &&
        MenuAfter(gameMenu.entries, old(gameMenu.entries), t.menu)
    {
      ghost var flags := input.pressedFlagKeys;
      ghost var entries := gameMenu.entries;
      ghost var t := PlayStep(livesAfterLogic, scoreAfterLogic);
      exited, t := MenuStep(enteredItem, t, flags, entries);
      if exited {
        return;
      }
      t := ResumeStep(t, flags, entries);
    }

    /** The playing part of a tick. */
    method PlayStep(livesAfterLogic: int, scoreAfterLogic: int) returns (ghost t: Tick)
      requires input.Valid()
      modifies this`gameState, this`playerLives, this`totalScore, gameMenu, input`pressedFlagKeys
      ensures input.Valid()
      ensures t == PlayStage(old(Snapshot()), livesAfterLogic, scoreAfterLogic)
      ensures Snapshot() == t.session && !t.exited
      ensures EscFlagsAfter(input.pressedFlagKeys, old(input.pressedFlagKeys), t.escReset)
      ensures MenuAfter(gameMenu.entries, old(gameMenu.entries), t.menu)
    {
      t := PlayStage(Snapshot(), livesAfterLogic, scoreAfterLogic);
      if gameState == Playing {
        if input.IsKeyFlagPressed(GameUserInput.Escape) {
          input.ResetKeyFlagPressed(GameUserInput.Escape);
          gameState := Paused;
          gameMenu.InitPauseMenu();
        }
        playerLives := livesAfterLogic;
        totalScore := scoreAfterLogic;
        if playerLives < 0 {
          gameState := GameOver;
        }
      }
    }

    /** The menu part of a tick. */
    method MenuStep(enteredItem: string, ghost t0: Tick, ghost flags: map<GameUserInput.Key, bool>,
                    ghost entries: seq<GameMenus.MenuEntry>) returns (exited: bool, ghost t: Tick)
      requires input.Valid() && Snapshot() == t0.session && !t0.exited
      requires EscFlagsAfter(input.pressedFlagKeys, flags, t0.escReset)
      requires MenuAfter(gameMenu.entries, entries, t0.menu)
      modifies this`gameState, this`playerLives, this`currentLevel, this`totalScore, gameMenu, input`pressedFlagKeys
      ensures input.Valid()
      ensures t == MenuStage(t0, enteredItem)
      ensures Snapshot() == t.session && exited == t.exited
      ensures EscFlagsAfter(input.pressedFlagKeys, flags, t.escReset)
      ensures MenuAfter(gameMenu.entries, entries, t.menu)
    {
      t := MenuStage(t0, enteredItem);
      exited := false;
      if gameState != Playing {
        if enteredItem == "Play" {
          gameState := Playing;
          StartNewCasualSession();
        }
        if enteredItem == "Sandbox" {
          gameState := Playing;
          StartNewSandboxSession();
        }
        if enteredItem == "Exit" {
          return true, t;
        }
        if enteredItem == "Resume" {
          input.ResetKeyFlagPressed(GameUserInput.Escape);
          gameState := Playing;
        }
        if enteredItem == "Exit to Main Menu" {
          gameState := MainMenu;
          gameMenu.InitMainMenu();
        }
      }
    }

    /** The final part of a tick: Esc while paused resumes. */
    method ResumeStep(ghost t0: Tick, ghost flags: map<GameUserInput.Key, bool>,
                      ghost entries: seq<GameMenus.MenuEntry>) returns (ghost t: Tick)
      requires input.Valid() && Snapshot() == t0.session && !t0.exited
      requires EscFlagsAfter(input.pressedFlagKeys, flags, t0.escReset)
      requires MenuAfter(gameMenu.entries, entries, t0.menu)
      modifies this`gameState, input`pressedFlagKeys
      ensures input.Valid()
      ensures t == ResumeStage(t0)
      ensures Snapshot() == t.session
      ensures EscFlagsAfter(input.pressedFlagKeys, flags, t.escReset)
      ensures MenuAfter(gameMenu.entries, entries, t.menu)
    {
      t := ResumeStage(t0);
      if gameState == Paused {
        if input.IsKeyFlagPressed(GameUserInput.Escape) {
          input.ResetKeyFlagPressed(GameUserInput.Escape);
          gameState := Playing;
        }
      }
    }
  }
}
