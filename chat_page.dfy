/**
 * The state the chat page's event handlers update (src/app/page.tsx, without
 * the rendering): the message list, the saved cards, the card being saved and
 * its note, the active message and the animation markers. A handler that hands
 * work to `setTimeout` returns that work as a `Timer`; `Fire` is the later step.
 */
module ChatPage {
  import opened Wrappers
  import Seqs
  import opened CityQuery

  datatype Role = UserRole | AssistantRole

  datatype Message = Message(id: string, role: Role, content: string)

  datatype SavedCard = SavedCard(city: string, note: string, weather: string, timestamp: nat)

  datatype Direction = Left | Right

  /** `slidingMessageId`: which message slides out, and where to. */
  datatype Sliding = Sliding(id: string, direction: Direction)

  datatype AnimationKind = SlideLeft | SlideRight | Tear

  datatype AnimationState = AnimationState(id: string, kind: AnimationKind)

  /**
   * The callback a handler passed to `setTimeout`, with what it captured. The
   * close and save callbacks hold the `messages` list of the render the handler
   * ran in; the delete callback uses functional updates and so sees the state
   * as it is when it fires.
   */
  datatype Timer =
    | CloseTimer(snapshot: seq<Message>, messageId: string)
    | SaveTimer(snapshot: seq<Message>, messageId: string)
    | DeleteTimer(cardTimestamp: nat, messageId: string)

  /** All of the page's state, for stating what a handler leaves alone. */
  datatype PageState = PageState(
    messages: seq<Message>,
    input: string,
    currentCity: string,
    savedCards: seq<SavedCard>,
    isDropdownOpen: bool,
    slidingMessageId: Option<Sliding>,
    savingCard: Option<string>,
    saveNote: string,
    activeMessageId: Option<string>,
    animationState: Option<AnimationState>,
    displayNote: Option<string>,
    isFromDropdown: Option<string>)

  // ---------------------------------------------------------------------------
  // The list operations the handlers use.

  function IdIsNot(id: string): Message -> bool
  {
    (m: Message) => m.id != id
  }

  /** `messages.filter(m => m.id !== id)`. */
  function WithoutMessage(ms: seq<Message>, id: string): (r: seq<Message>)
    ensures forall m :: m in r <==> m in ms && m.id != id
    ensures (forall i :: 0 <= i < |ms| ==> ms[i].id != id) ==> r == ms
  {
    if forall i :: 0 <= i < |ms| ==> ms[i].id != id then
      Seqs.FilterAllKept(ms, IdIsNot(id));
      Seqs.Filter(ms, IdIsNot(id))
    else Seqs.Filter(ms, IdIsNot(id))
  }

  /** Removing a message twice is removing it once. */
  lemma WithoutMessageIdempotent(ms: seq<Message>, id: string)
    ensures WithoutMessage(WithoutMessage(ms, id), id) == WithoutMessage(ms, id)
  {
    Seqs.FilterIdempotent(ms, IdIsNot(id));
  }

  /**
   * Removing a message keeps the order of the others: it works piece by piece
   * on a concatenation, and a single message stays exactly when its id differs.
   */
  lemma WithoutMessageKeepsOrder(ms: seq<Message>, ns: seq<Message>, id: string, m: Message)
    ensures WithoutMessage(ms + ns, id) == WithoutMessage(ms, id) + WithoutMessage(ns, id)
    ensures WithoutMessage([m], id) == if m.id != id then [m] else []
  {
    Seqs.FilterAppend(ms, ns, IdIsNot(id));
    Seqs.FilterSingleton(m, IdIsNot(id));
  }

  /** Removing a message keeps every other message exactly as often as it was there. */
  lemma WithoutMessageCounts(ms: seq<Message>, id: string)
    ensures forall m :: multiset(WithoutMessage(ms, id))[m] == if m.id == id then 0 else multiset(ms)[m]
  {
    Seqs.FilterCounts(ms, IdIsNot(id));
  }

  function TimestampIsNot(timestamp: nat): SavedCard -> bool
  {
    (c: SavedCard) => c.timestamp != timestamp
  }

  /** `savedCards.filter(card => card.timestamp !== timestamp)`. */
  function WithoutTimestamp(cards: seq<SavedCard>, timestamp: nat): (r: seq<SavedCard>)
    ensures forall c :: c in r <==> c in cards && c.timestamp != timestamp
  {
    Seqs.Filter(cards, TimestampIsNot(timestamp))
  }

  /**
   * Removing cards by timestamp keeps the order of the others (the order the
   * dropdown lists them in): it works piece by piece on a concatenation, and a
   * single card stays exactly when its timestamp differs.
   */
  lemma WithoutTimestampKeepsOrder(cs: seq<SavedCard>, ds: seq<SavedCard>, timestamp: nat, c: SavedCard)
    ensures WithoutTimestamp(cs + ds, timestamp) == WithoutTimestamp(cs, timestamp) + WithoutTimestamp(ds, timestamp)
    ensures WithoutTimestamp([c], timestamp) == if c.timestamp != timestamp then [c] else []
  {
    Seqs.FilterAppend(cs, ds, TimestampIsNot(timestamp));
    Seqs.FilterSingleton(c, TimestampIsNot(timestamp));
  }

  /** Every card with another timestamp is kept as often as it was there, duplicates included. */
  lemma WithoutTimestampCounts(cards: seq<SavedCard>, timestamp: nat)
    ensures forall c :: multiset(WithoutTimestamp(cards, timestamp))[c]
                        == if c.timestamp == timestamp then 0 else multiset(cards)[c]
  {
    Seqs.FilterCounts(cards, TimestampIsNot(timestamp));
  }

  function HasId(id: string): Message -> bool
  {
    (m: Message) => m.id == id
  }

  /** `messages.find(m => m.id === id)`: the first message with that id. */
  function FindMessage(ms: seq<Message>, id: string): (r: Option<Message>)
    ensures r.None? <==> forall i :: 0 <= i < |ms| ==> ms[i].id != id
    ensures r.Some? ==> exists i :: 0 <= i < |ms| && ms[i] == r.value && r.value.id == id
                                    && forall j :: 0 <= j < i ==> ms[j].id != id
  {
    Seqs.Find(ms, HasId(id))
  }

  function ShowsWeather(content: string): SavedCard -> bool
  {
    (c: SavedCard) => c.weather == content
  }

  /** `savedCards.find(card => card.weather === content)`: the first card showing that text. */
  function FindCard(cards: seq<SavedCard>, content: string): (r: Option<SavedCard>)
    ensures r.None? <==> forall i :: 0 <= i < |cards| ==> cards[i].weather != content
    ensures r.Some? ==> exists i :: 0 <= i < |cards| && cards[i] == r.value && r.value.weather == content
                                    && forall j :: 0 <= j < i ==> cards[j].weather != content
  {
    Seqs.Find(cards, ShowsWeather(content))
  }

  /**
   * Deleting by the matched card's timestamp removes that card and every card
   * sharing its timestamp, and keeps all the others.
   */
  lemma DeleteRemovesMatchedCard(cards: seq<SavedCard>, content: string)
    requires FindCard(cards, content).Some?
    ensures var c := FindCard(cards, content).value;
            && c in cards && c !in WithoutTimestamp(cards, c.timestamp)
            && (forall d :: d in cards && d.timestamp != c.timestamp ==> d in WithoutTimestamp(cards, c.timestamp))
            && (forall d :: d in WithoutTimestamp(cards, c.timestamp) ==> d.timestamp != c.timestamp)
  {
  }

  /** What `handleWeatherQuery` did: no city in the text, a reply, or a rejected fetch. */
  datatype QueryOutcome = NoCity | Replied(city: string, reply: string) | FetchRejected(city: string)

  /**
   * `handleWeatherQuery(message)`. `fetched` is the formatted reply the weather
   * lookup produces, or `None` when the fetch rejects; it is used only when a
   * city was found, which is also when the one fetch is made.
   */
  function WeatherQuery(message: string, fetched: Option<string>): (r: QueryOutcome)
    ensures r.NoCity? <==> ExtractCity(message).None?
    ensures !r.NoCity? ==> r.city == ExtractCity(message).value && |r.city| >= 1
    ensures r.Replied? <==> ExtractCity(message).Some? && fetched.Some?
    ensures r.Replied? ==> r.reply == fetched.value
  {
    match ExtractCity(message)
    case None => NoCity
    case Some(city) =>
      match fetched
      case None => FetchRejected(city)
      case Some(text) => Replied(city, text)
  }

  // ---------------------------------------------------------------------------
  // The component's state and its handlers.

  class ChatState {
    var messages: seq<Message>
    var input: string
    var currentCity: string
    var savedCards: seq<SavedCard>
    var isDropdownOpen: bool
    var slidingMessageId: Option<Sliding>
    var savingCard: Option<string>
    var saveNote: string
    var activeMessageId: Option<string>
    var animationState: Option<AnimationState>
    var displayNote: Option<string>
    var isFromDropdown: Option<string>

    function State(): PageState
      reads this
    {
      PageState(messages, input, currentCity, savedCards, isDropdownOpen, slidingMessageId,
                savingCard, saveNote, activeMessageId, animationState, displayNote, isFromDropdown)
    }

    /** The initial state; `now` is the clock reading that stamps the default card. */
    constructor (now: nat)
      ensures State() == PageState([], "", "London", [SavedCard("London", "Default", "Sunny", now)], false,
                                   None, None, "", None, None, None, None)
    {
      messages := [];
      input := "";
      currentCity := "London";
      savedCards := [SavedCard("London", "Default", "Sunny", now)];
      isDropdownOpen := false;
      slidingMessageId := None;
      savingCard := None;
      saveNote := "";
      activeMessageId := None;
      animationState := None;
      displayNote := None;
      isFromDropdown := None;
    }

    /** Typing in the chat box (`handleInputChange`). */
    method SetInput(text: string)
      modifies this
      ensures State() == old(State()).(input := text)
    {
      input := text;
    }

    /**
     * `handleSubmit`: nothing happens for blank input, for input without
     * `weather in`, when no city can be extracted, or when the fetch rejects;
     * otherwise the reply is appended as an assistant message under `newId`,
     * which becomes active, the city becomes current and the input is cleared.
     */
    method HandleSubmit(fetched: Option<string>, newId: string)
      modifies this
      ensures var q := WeatherQuery(old(input), fetched);
              if IsBlank(old(input)) || !MentionsWeather(old(input)) || !q.Replied? then
                State() == old(State())
              else
                State() == old(State()).(
                  activeMessageId := Some(newId),
                  messages := old(messages) + [Message(newId, AssistantRole, q.reply)],
                  currentCity := q.city,
                  input := "")
      ensures forall id :: IsFromSavedCard(id) == old(IsFromSavedCard(id))
    {
      var text := input;
      if IsBlank(text) {
        return;
      }
      if MentionsWeather(text) {
        var q := WeatherQuery(text, fetched);
        if q.Replied? {
          // the second `input.match(...)` finds the same city as the query did
          var cityMatch := ExtractCity(text);
          AcceptReply(newId, q.reply, cityMatch.value);
        }
      }
    }

    /** The state changes of `handleSubmit` once the reply is there. */
    method AcceptReply(newId: string, reply: string, city: string)
      modifies this
      ensures State() == old(State()).(
                activeMessageId := Some(newId),
                messages := old(messages) + [Message(newId, AssistantRole, reply)],
                currentCity := city,
                input := "")
    {
      ShowReply(newId, reply);
      currentCity, input := city, "";
    }

    /** Append a weather reply as an assistant message and make it the active one. */
    method ShowReply(newId: string, reply: string)
      modifies this
      ensures State() == old(State()).(activeMessageId := Some(newId),
                                       messages := old(messages) + [Message(newId, AssistantRole, reply)])
    {
      activeMessageId, messages := Some(newId), messages + [Message(newId, AssistantRole, reply)];
    }

    /** `clearMessages`. */
    method ClearMessages()
      modifies this
      ensures State() == old(State()).(messages := [])
    {
      messages := [];
    }

    /** The "Saved Cards" button. */
    method ToggleDropdown()
      modifies this
      ensures State() == old(State()).(isDropdownOpen := !old(isDropdownOpen))
    {
      isDropdownOpen := !isDropdownOpen;
    }

    /**
     * `handleCardSelect`: query the card's city again; on a reply, show it as
     * a new active message marked as opened from the dropdown, with the card's note.
     */
    method HandleCardSelect(card: SavedCard, fetched: Option<string>, newId: string)
      modifies this
      ensures var q := WeatherQuery(Phrase + card.city, fetched);
              if !q.Replied? then State() == old(State())
              else
                State() == old(State()).(
                  currentCity := card.city,
                  displayNote := Some(card.note),
                  isFromDropdown := Some(newId),
                  messages := old(messages) + [Message(newId, AssistantRole, q.reply)],
                  activeMessageId := Some(newId),
                  isDropdownOpen := false)
      ensures WeatherQuery(Phrase + card.city, fetched).Replied? ==>
                forall id :: IsFromSavedCard(id) <==> id == newId
      ensures !WeatherQuery(Phrase + card.city, fetched).Replied? ==>
                forall id :: IsFromSavedCard(id) == old(IsFromSavedCard(id))
    {
      var q := WeatherQuery(Phrase + card.city, fetched);
      if q.Replied? {
        ShowCard(card, newId, q.reply);
      }
    }

    /** The state changes of `handleCardSelect` once the reply is there. */
    method ShowCard(card: SavedCard, newId: string, reply: string)
      modifies this
      ensures State() == old(State()).(
                currentCity := card.city,
                displayNote := Some(card.note),
                isFromDropdown := Some(newId),
                messages := old(messages) + [Message(newId, AssistantRole, reply)],
                activeMessageId := Some(newId),
                isDropdownOpen := false)
    {
      currentCity, displayNote, isFromDropdown := card.city, Some(card.note), Some(newId);
      ShowReply(newId, reply);
      isDropdownOpen := false;
    }

    /** `handleCloseCard`: start the slide to the left; the removal is deferred. */
    method HandleCloseCard(messageId: string) returns (t: Timer)
      modifies this
      ensures State() == old(State()).(slidingMessageId := Some(Sliding(messageId, Left)))
      ensures t == CloseTimer(old(messages), messageId)
    {
      slidingMessageId := Some(Sliding(messageId, Left));
      t := CloseTimer(messages, messageId);
    }

    /** `handleSaveCard`: open the note editor for the message with an empty note. */
    method HandleSaveCard(messageId: string)
      modifies this
      ensures State() == old(State()).(savingCard := Some(messageId), saveNote := "")
    {
      savingCard := Some(messageId);
      saveNote := "";
    }

    /** Typing in the note field (`setSaveNote(e.target.value)`). */
    method SetSaveNote(text: string)
      modifies this
      ensures State() == old(State()).(saveNote := text)
    {
      saveNote := text;
    }

    /** `handleCancelSave`: close the note editor and drop the note. */
    method HandleCancelSave()
      modifies this
      ensures State() == old(State()).(savingCard := None, saveNote := "")
    {
      savingCard := None;
      saveNote := "";
    }

    /**
     * `handleConfirmSave`: for a known message, put a card with the current
     * city, the note, the message text and `now` in front of the saved cards and
     * start the slide to the right; for an unknown id, do nothing.
     */
    method HandleConfirmSave(messageId: string, now: nat) returns (t: Option<Timer>)
      modifies this
      ensures FindMessage(old(messages), messageId).None? ==> State() == old(State()) && t.None?
      ensures FindMessage(old(messages), messageId).Some? ==>
                && State() == old(State()).(
                     savedCards := [SavedCard(old(currentCity), old(saveNote),
                                              FindMessage(old(messages), messageId).value.content, now)]
                                   + old(savedCards),
                     slidingMessageId := Some(Sliding(messageId, Right)))
                && t == Some(SaveTimer(old(messages), messageId))
    {
      var found := FindMessage(messages, messageId);
      if found.None? {
        return None;
      }
      var card := SavedCard(currentCity, saveNote, found.value.content, now);
      savedCards := [card] + savedCards;
      slidingMessageId := Some(Sliding(messageId, Right));
      t := Some(SaveTimer(messages, messageId));
    }

    /**
     * `handleDeleteSavedCard`: with an active message and a card showing
     * `content`, start the tear animation on the active message; the removal of
     * every card with that card's timestamp, and of the message, is deferred.
     */
    method HandleDeleteSavedCard(content: string) returns (t: Option<Timer>)
      modifies this
      ensures (old(activeMessageId).None? || old(activeMessageId) == Some("") || FindCard(old(savedCards), content).None?)
              ==> State() == old(State()) && t.None?
      ensures (old(activeMessageId).Some? && old(activeMessageId) != Some("") && FindCard(old(savedCards), content).Some?)
              ==> && State() == old(State()).(animationState := Some(AnimationState(old(activeMessageId).value, Tear)))
                  && t == Some(DeleteTimer(FindCard(old(savedCards), content).value.timestamp, old(activeMessageId).value))
    {
      if activeMessageId.None? || activeMessageId == Some("") {
        return None;
      }
      var messageId := activeMessageId.value;
      var cardToDelete := FindCard(savedCards, content);
      if cardToDelete.None? {
        return None;
      }
      animationState := Some(AnimationState(messageId, Tear));
      t := Some(DeleteTimer(cardToDelete.value.timestamp, messageId));
    }

    /** The dismiss button of the active message (`setActiveMessageId(null)`). */
    method DismissActive()
      modifies this
      ensures State() == old(State()).(activeMessageId := None)
    {
      activeMessageId := None;
    }

    /** The deferred step of a close, a save or a delete. */
    method Fire(t: Timer)
      modifies this
      ensures t.CloseTimer? ==>
                State() == old(State()).(messages := WithoutMessage(t.snapshot, t.messageId), slidingMessageId := None)
      ensures t.SaveTimer? ==>
                State() == old(State()).(messages := WithoutMessage(t.snapshot, t.messageId), slidingMessageId := None,
                                         savingCard := None, saveNote := "")
      ensures t.DeleteTimer? ==>
                State() == old(State()).(savedCards := WithoutTimestamp(old(savedCards), t.cardTimestamp),
                                         messages := WithoutMessage(old(messages), t.messageId),
                                         activeMessageId := None, animationState := None)
      ensures forall id :: IsFromSavedCard(id) == old(IsFromSavedCard(id))
    {
      match t {
        case CloseTimer(snapshot, id) => FinishClose(snapshot, id);
        case SaveTimer(snapshot, id) => FinishSave(snapshot, id);
        case DeleteTimer(timestamp, id) => FinishDelete(timestamp, id);
      }
    }

    /** The close callback: the captured list minus the message; the slide ends. */
    method FinishClose(snapshot: seq<Message>, messageId: string)
      modifies this
      ensures State() == old(State()).(messages := WithoutMessage(snapshot, messageId), slidingMessageId := None)
    {
      messages, slidingMessageId := WithoutMessage(snapshot, messageId), None;
    }

    /** The save callback: as the close callback, and the note editor is reset. */
    method FinishSave(snapshot: seq<Message>, messageId: string)
      modifies this
      ensures State() == old(State()).(messages := WithoutMessage(snapshot, messageId), slidingMessageId := None,
                                       savingCard := None, saveNote := "")
    {
      messages, slidingMessageId, savingCard, saveNote := WithoutMessage(snapshot, messageId), None, None, "";
    }

    /** The delete callback, on the current cards and messages. */
    method FinishDelete(timestamp: nat, messageId: string)
      modifies this
      ensures State() == old(State()).(savedCards := WithoutTimestamp(old(savedCards), timestamp),
                                       messages := WithoutMessage(old(messages), messageId),
                                       activeMessageId := None, animationState := None)
    {
      savedCards, messages, activeMessageId, animationState :=
        WithoutTimestamp(savedCards, timestamp), WithoutMessage(messages, messageId), None, None;
    }

    /** `isFromSavedCard(id)`: the message was opened from the saved-cards dropdown. */
    function IsFromSavedCard(messageId: string): (r: bool)
      reads this
      ensures r <==> isFromDropdown == Some(messageId)
    {
      isFromDropdown == Some(messageId)
    }
  }

  /**
   * Saving a message and letting its timer fire, with nothing in between, leaves
   * the new card first, the message gone, all other messages in place, and the
   * note editor closed.
   */
  method SaveFlow(page: ChatState, messageId: string, now: nat)
    requires FindMessage(page.messages, messageId).Some?
    modifies page
    ensures |page.savedCards| == |old(page.savedCards)| + 1
    ensures page.savedCards[0].weather == FindMessage(old(page.messages), messageId).value.content
    ensures page.savedCards[1..] == old(page.savedCards)
    ensures forall m :: m in page.messages <==> m in old(page.messages) && m.id != messageId
    ensures page.savingCard.None? && page.saveNote == "" && page.slidingMessageId.None?
  {
    var t := page.HandleConfirmSave(messageId, now);
    page.Fire(t.value);
  }
}
