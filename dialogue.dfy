/** A dialogue box that plays one conversation a line at a time: each line
    shows its text, the speaking actor's name and portrait, and requests the
    actor's voice clip and the box's chime (Assets/Scripts/DialogueManager.cs). */
module Dialogue {

  datatype Option<T> = None | Some(value: T)

  /** A speaking character; sprites and clips are asset handles, and a clip
      that is not assigned is None. */
  datatype Actor = Actor(name: string, sprite: int, sound: Option<int>)

  /** One line of dialogue, spoken by the actor at position actorId. */
  datatype Message = Message(actorId: int, message: string)

  /** A sound the box asks the audio system to play. */
  datatype Sound = Voice(clip: int) | Chime

  /** What the box shows: the message text, the actor name text and the
      actor image's sprite. */
  datatype Screen = Screen(text: string, name: string, sprite: int)

  /** The state of a dialogue manager.
      - loaded: a conversation has been loaded (the message array is set);
      - cursor: the index of the current message;
      - active: the conversation is running (the isActive flag);
      - sounds: every sound requested so far, in order;
      - chime: the box has a message sound with a clip assigned. */
  datatype Session = Session(
    messages: seq<Message>,
    actors: seq<Actor>,
    loaded: bool,
    cursor: int,
    active: bool,
    screen: Screen,
    sounds: seq<Sound>,
    chime: bool)

  /** The message at i and its actor can both be read: DisplayMessage
      indexes the message array and then the actor array without checks. */
  predicate Displayable(messages: seq<Message>, actors: seq<Actor>, i: int)
  {
    0 <= i < |messages| && 0 <= messages[i].actorId < |actors|
  }

  /** Every message of the conversation names an actor. */
  predicate WellFormed(messages: seq<Message>, actors: seq<Actor>)
  {
    forall i | 0 <= i < |messages| :: 0 <= messages[i].actorId < |actors|
  }

  /** The cursor never goes below 0 once a conversation is loaded, and it
      points at a message while the conversation runs. */
  predicate CursorInRange(s: Session)
  {
    (s.loaded ==> s.cursor >= 0) &&
    (s.active ==> s.loaded && s.cursor < |s.messages|)
  }

  /** A manager before any conversation: nothing loaded, cursor 0, inactive,
      the widgets as the scene set them up. */
  function Initial(screen: Screen, chime: bool): Session
  {
    Session([], [], false, 0, false, screen, [], chime)
  }

  /** What the box shows for message i. */
  function Shown(messages: seq<Message>, actors: seq<Actor>, i: int): (r: Screen)
    requires Displayable(messages, actors, i)
    ensures r.text == messages[i].message
    ensures r.name == actors[messages[i].actorId].name
    ensures r.sprite == actors[messages[i].actorId].sprite
  {
    var actor := actors[messages[i].actorId];
    Screen(messages[i].message, actor.name, actor.sprite)
  }

  /** The sounds one display requests: the actor's clip if it has one, then
      the chime if the box has one. */
  function Requested(actor: Actor, chime: bool): (r: seq<Sound>)
    ensures |r| == (if actor.sound.Some? then 1 else 0) + (if chime then 1 else 0)
    ensures actor.sound.Some? ==> r[0] == Voice(actor.sound.value)
    ensures chime ==> r[|r| - 1] == Chime
    ensures Chime in r <==> chime
  {
    (if actor.sound.Some? then [Voice(actor.sound.value)] else []) +
    (if chime then [Chime] else [])
  }

  /** DisplayMessage: show the current message and request its sounds. */
  function Display(s: Session): (r: Session)
    requires Displayable(s.messages, s.actors, s.cursor)
    ensures r.messages == s.messages && r.actors == s.actors && r.loaded == s.loaded
    ensures r.cursor == s.cursor && r.active == s.active && r.chime == s.chime
    ensures |r.sounds| >= |s.sounds| && r.sounds[..|s.sounds|] == s.sounds
  {
    var actor := s.actors[s.messages[s.cursor].actorId];
    s.(screen := Shown(s.messages, s.actors, s.cursor),
       sounds := s.sounds + Requested(actor, s.chime))
  }

  /** OpenDialogue: load a conversation, rewind to its first message, raise
      the active flag and display that message. */
  function Open(s: Session, messages: seq<Message>, actors: seq<Actor>): (r: Session)
    requires Displayable(messages, actors, 0)
    ensures CursorInRange(r) && r.active && r.cursor == 0
    ensures r.messages == messages && r.actors == actors
    ensures r.screen == Shown(messages, actors, 0)
    ensures r.loaded && r.chime == s.chime
    ensures r.sounds == s.sounds + Requested(actors[messages[0].actorId], s.chime)
  {
    Display(s.(messages := messages, actors := actors, loaded := true, cursor := 0, active := true))
  }

  /** The condition under which NextMessage does not fail: a conversation
      is loaded and the message it moves to, if any, can be displayed. */
  predicate CanAdvance(s: Session)
  {
    s.loaded && s.cursor >= 0 &&
    (s.cursor + 1 < |s.messages| ==> Displayable(s.messages, s.actors, s.cursor + 1))
  }

  /** NextMessage: move the cursor on by one; display the message there if
      there is one, otherwise end the conversation. */
  function Next(s: Session): (r: Session)
    requires CanAdvance(s)
    ensures r.cursor == s.cursor + 1 && r.loaded
    ensures r.messages == s.messages && r.actors == s.actors && r.chime == s.chime
    ensures r.active <==> s.active && s.cursor + 1 < |s.messages|
    ensures CursorInRange(r)
  {
    var moved := s.(cursor := s.cursor + 1);
    if moved.cursor < |s.messages| then Display(moved)
    else moved.(active := false)
  }

  /** Update, once per frame: advance only when the key went down and the
      conversation is running. */
  function Step(s: Session, keyDown: bool): (r: Session)
    requires CursorInRange(s) && (keyDown && s.active ==> CanAdvance(s))
    ensures CursorInRange(r) && r.messages == s.messages && r.actors == s.actors
    ensures r.cursor != s.cursor ==> keyDown && s.active && r.cursor == s.cursor + 1
    ensures !(keyDown && s.active) ==> r == s
  {
    if keyDown && s.active then Next(s) else s
  }

  /** The state after k calls of NextMessage. */
  function Advance(s: Session, k: nat): (r: Session)
    requires s.loaded && s.cursor >= 0 && WellFormed(s.messages, s.actors)
    ensures r.cursor == s.cursor + k && r.loaded
    ensures r.messages == s.messages && r.actors == s.actors
    decreases k
  {
    if k == 0 then s else Advance(Next(s), k - 1)
  }

  /** The state after one frame per entry of keys. */
  function Run(s: Session, keys: seq<bool>): (r: Session)
    requires CursorInRange(s) && WellFormed(s.messages, s.actors)
    ensures CursorInRange(r) && r.messages == s.messages && r.actors == s.actors
    ensures r.cursor >= s.cursor
    decreases |keys|
  {
    if keys == [] then s else Run(Step(s, keys[0]), keys[1..])
  }

  /** A display shows the current message's text and its actor's name and
      portrait, and leaves the cursor and the active flag alone. */
  lemma DisplayShowsSpeaker(s: Session)
    requires Displayable(s.messages, s.actors, s.cursor)
    ensures Display(s).screen.text == s.messages[s.cursor].message
    ensures Display(s).screen.name == s.actors[s.messages[s.cursor].actorId].name
    ensures Display(s).screen.sprite == s.actors[s.messages[s.cursor].actorId].sprite
    ensures Display(s).cursor == s.cursor && Display(s).active == s.active
  {
  }

  /** A display requests a voice clip exactly when the speaking actor has
      one, and then that very clip, once; the chime exactly when the box has
      one, once, after the voice. */
  lemma DisplaySounds(s: Session, clip: int)
    requires Displayable(s.messages, s.actors, s.cursor)
    ensures var actor := s.actors[s.messages[s.cursor].actorId];
            var added := Display(s).sounds[|s.sounds|..];
            Display(s).sounds[..|s.sounds|] == s.sounds &&
            |added| == (if actor.sound.Some? then 1 else 0) + (if s.chime then 1 else 0) &&
            (actor.sound.Some? ==> added[0] == Voice(actor.sound.value)) &&
            (s.chime ==> added[|added| - 1] == Chime) &&
            (Voice(clip) in added <==> actor.sound == Some(clip)) &&
            (Chime in added <==> s.chime)
  {
  }

  /** NextMessage within the conversation displays the next message,
      requests that message's sounds, and leaves the active flag as it was:
      it is exactly a display at the next cursor. */
  lemma NextDisplays(s: Session)
    requires CanAdvance(s) && s.cursor + 1 < |s.messages|
    ensures Next(s).active == s.active
    ensures Next(s).screen == Shown(s.messages, s.actors, s.cursor + 1)
    ensures Next(s).sounds == s.sounds + Requested(s.actors[s.messages[s.cursor + 1].actorId], s.chime)
    ensures Next(s) == Display(s.(cursor := s.cursor + 1))
  {
  }

  /** NextMessage past the last message ends the conversation and displays
      nothing: the box and the requested sounds stay as they were. */
  lemma NextEnds(s: Session)
    requires CanAdvance(s) && s.cursor + 1 >= |s.messages|
    ensures !Next(s).active
    ensures Next(s).screen == s.screen && Next(s).sounds == s.sounds
  {
  }

  /** After a conversation of N messages opens, the first N - 1 calls of
      NextMessage keep it running, each showing the message it moved to. */
  lemma {:induction false} ConversationRuns(s: Session, messages: seq<Message>, actors: seq<Actor>, k: nat)
    requires WellFormed(messages, actors) && 0 < |messages|
    requires k < |messages|
    ensures Advance(Open(s, messages, actors), k).active
    ensures Advance(Open(s, messages, actors), k).cursor == k
    ensures Advance(Open(s, messages, actors), k).screen == Shown(messages, actors, k)
  {
    var o := Open(s, messages, actors);
    if k > 0 {
      ConversationRuns(s, messages, actors, k - 1);
      var prev := Advance(o, k - 1);
      assert prev.messages == messages && prev.actors == actors && prev.cursor == k - 1;
      assert Displayable(messages, actors, k);
      AdvanceStep(o, k - 1);
      NextDisplays(prev);
    }
  }

  /** ... and the N-th call ends it. */
  lemma ConversationEnds(s: Session, messages: seq<Message>, actors: seq<Actor>)
    requires WellFormed(messages, actors) && 0 < |messages|
    ensures !Advance(Open(s, messages, actors), |messages|).active
    ensures Advance(Open(s, messages, actors), |messages|).cursor == |messages|
  {
    var o := Open(s, messages, actors);
    ConversationRuns(s, messages, actors, |messages| - 1);
    AdvanceStep(o, |messages| - 1);
  }

  /** k + 1 calls of NextMessage are k calls followed by one more. */
  lemma {:induction false} AdvanceStep(s: Session, k: nat)
    requires s.loaded && s.cursor >= 0 && WellFormed(s.messages, s.actors)
    ensures Advance(s, k + 1) == Next(Advance(s, k))
    decreases k
  {
    if k > 0 {
      AdvanceStep(Next(s), k - 1);
    }
  }

  /** A conversation that is not running never moves: no frame changes it,
      whatever keys are pressed. */
  lemma {:induction false} InactiveStaysPut(s: Session, keys: seq<bool>)
    requires CursorInRange(s) && WellFormed(s.messages, s.actors) && !s.active
    ensures Run(s, keys) == s
    decreases |keys|
  {
    if keys != [] {
      InactiveStaysPut(s, keys[1..]);
    }
  }

  /** For a running conversation, n frames in a row with the key down, n no
      more than the messages from the cursor to the end, have the same
      effect as n calls of NextMessage. */
  lemma {:induction false} KeyFramesAdvance(s: Session, n: nat)
    requires CursorInRange(s) && WellFormed(s.messages, s.actors) && s.active
    requires s.cursor + n <= |s.messages|
    ensures Run(s, seq(n, _ => true)) == Advance(s, n)
    decreases n
  {
    if n > 0 {
      var keys := seq(n, _ => true);
      assert keys[1..] == seq(n - 1, _ => true);
      var next := Next(s);
      if n > 1 {
        KeyFramesAdvance(next, n - 1);
      } else {
        assert keys[1..] == [];
      }
    }
  }

  /** The two-line example: ActorA says "Hi", ActorB says "Bye"; the first
      display shows ActorA and "Hi", one NextMessage shows ActorB and "Bye",
      a second one ends the conversation. */
  lemma TwoLines(s: Session, a: Actor, b: Actor)
    ensures var o := Open(s, [Message(0, "Hi"), Message(1, "Bye")], [a, b]);
            o.screen == Screen("Hi", a.name, a.sprite) &&
            Next(o).screen == Screen("Bye", b.name, b.sprite) && Next(o).active &&
            !Next(Next(o)).active
  {
  }

  /** A dialogue manager as the engine holds it: the loaded conversation,
      the cursor, the active flag and the widgets are fields it reassigns. */
  class DialogueManager {
    var currentMessages: seq<Message>
    var currentActors: seq<Actor>
    /** currentMessages has been assigned. */
    var loaded: bool
    var activeMessage: int
    var isActive: bool
    var messageText: string
    var actorName: string
    var actorSprite: int
    /** Every sound requested so far, in order. */
    var soundLog: seq<Sound>
    /** The message sound exists and has a clip. */
    const chimeReady: bool

    ghost predicate Valid()
      reads this
    {
      CursorInRange(Model())
    }

    /** The abstract value of the manager. */
    function Model(): Session
      reads this
    {
      Session(currentMessages, currentActors, loaded, activeMessage, isActive,
              Screen(messageText, actorName, actorSprite), soundLog, chimeReady)
    }

    constructor (screen: Screen, chimeReady: bool)
      ensures Valid() && Model() == Initial(screen, chimeReady)
    {
      currentMessages, currentActors := [], [];
      loaded := false;
      activeMessage := 0;
      isActive := false;
      messageText, actorName, actorSprite := screen.text, screen.name, screen.sprite;
      soundLog := [];
      this.chimeReady := chimeReady;
    }

    method OpenDialogue(messages: seq<Message>, actors: seq<Actor>)
      requires Displayable(messages, actors, 0)
      modifies this
      ensures Valid() && Model() == Open(old(Model()), messages, actors)
    {
      currentMessages := messages;
      currentActors := actors;
      loaded := true;
      activeMessage := 0;
      isActive := true;
      DisplayMessage();
    }

    method DisplayMessage()
      requires Displayable(currentMessages, currentActors, activeMessage)
      modifies this
      ensures Model() == Display(old(Model()))
    {
      var shown := currentMessages[activeMessage];
      messageText := shown.message;
      var actor := currentActors[shown.actorId];
      actorName := actor.name;
      actorSprite := actor.sprite;
      if actor.sound.Some? {
        soundLog := soundLog + [Voice(actor.sound.value)];
      }
      if chimeReady {
        soundLog := soundLog + [Chime];
      }
    }

    method NextMessage()
      requires CanAdvance(Model())
      modifies this
      ensures Valid() && Model() == Next(old(Model()))
    {
      activeMessage := activeMessage + 1;
      if activeMessage < |currentMessages| {
        DisplayMessage();
      } else {
        isActive := false;
      }
    }

    method Update(keyDown: bool)
      requires Valid() && (keyDown && isActive ==> CanAdvance(Model()))
      modifies this
      ensures Valid() && Model() == Step(old(Model()), keyDown)
    {
      if keyDown && isActive {
        NextMessage();
      }
    }
  }
}
