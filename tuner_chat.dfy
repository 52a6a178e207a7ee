/** The chat assistant of `src/TunerChat.jsx`: the send guard, the
    marketplace short-circuit that pauses a text-only request when a catalog
    title matches, the "get from marketplace" and "record new" follow-ups,
    and the shaping of messages from the gateway's answer.

    Every handler that awaits a timer or a `fetch` is split in two: a method
    for what happens before the wait and a continuation that takes the
    gateway's answer as a parameter (`Ok(json)`, or `Err` for a failed
    request, a non-2xx status or an unparsable body). `Date.now()` is the
    parameter `now` of the method that reads it. */
module TunerChat {
  import opened Wrappers
  import opened Seqs
  import opened Strings
  import opened Json
  import opened MarketplaceData
  import opened Chat

  /** One chat bubble. `text` is whatever value the code put there (the
      gateway's JSON in the "record new" reply); `media` and `mediaType` are
      `Null` when the message has none. */
  datatype ChatMessage = ChatMessage(id: int, sender: Sender, text: Value, media: Value, mediaType: Value)

  /** The pending marketplace offer: the trimmed query and its matches. */
  datatype Offer = Offer(query: string, matches: seq<Item>)

  /** A part of the form the send handler assembles. */
  datatype FormPart = TextField(name: string, value: string) | FilePart(name: string, fileName: string)

  /** What the send handler passes on: the `prompt` query parameter of the
      gateway request, and the form it builds but never transmits. */
  datatype Outbound = Outbound(prompt: string, unsentForm: seq<FormPart>)

  /** What a press of the send button leads to. */
  datatype SendOutcome = Ignored | Offered | Dispatched(request: Outbound)

  const WelcomeText: string := "Welcome to Fine-Tune Robots! Your AI assistant for optimizing robotics and automation.Upload audio, video, or images, or just ask me a question."
  const SendDefaultText: string := "I've received your input and processed it."
  const SendFailureText: string := "Sorry, I encountered an error processing your request. Please try again."
  const RecordPlaceholderText: string := "Sending request to Groq..."
  const RecordFallbackPrompt: string := "Autonomous Floor Cleaner"
  const RecordDefaultText: string := "Received a response from Groq."
  const RecordFailureText: string := "Sorry, there was an error communicating with Groq. Please try again."

  /** A catalog title matches an instruction when, both lowercased, the
      title contains the instruction. */
  predicate TitleMatches(item: Item, instruction: string) {
    Contains(Lower(item.title), Lower(instruction))
  }

  /** `TitleMatches` as the filter's test. */
  function TitleMatcher(instruction: string): Item -> bool {
    it => TitleMatches(it, instruction)
  }

  /** `checkMarketplace` over a catalog: the matching entries in catalog
      order, or `None` (the source's `null`) when there is none. */
  function MatchingTitles(items: seq<Item>, instruction: string): (r: Option<seq<Item>>)
    ensures r.None? <==> forall i :: 0 <= i < |items| ==> !TitleMatches(items[i], instruction)
    ensures r.Some? ==> r.value != [] && IsSubsequence(r.value, items)
    ensures r.Some? ==> forall it :: it in r.value <==> it in items && TitleMatches(it, instruction)
  {
    var p := TitleMatcher(instruction);
    var matches := Filter(items, p);
    FilterIsSubsequence(items, p);
    assert |matches| > 0 ==> exists i :: 0 <= i < |items| && TitleMatches(items[i], instruction) by {
      if |matches| > 0 {
        var j :| 0 <= j < |items| && items[j] == matches[0];
      }
    }
    if |matches| > 0 then Some(matches) else None
  }

  /** The matches keep each matching catalog entry as many times as the
      catalog has it. */
  lemma MatchingTitlesCounts(items: seq<Item>, instruction: string, x: Item)
    requires MatchingTitles(items, instruction).Some?
    ensures multiset(MatchingTitles(items, instruction).value)[x]
         == if TitleMatches(x, instruction) then multiset(items)[x] else 0
  {
    FilterMultiset(items, TitleMatcher(instruction), x);
  }

  /** `checkMarketplace` itself searches the static catalog. */
  function CheckMarketplace(instruction: string): Option<seq<Item>> {
    MatchingTitles(Catalog(), instruction)
  }

  /** A media preview counts only when it is a non-empty string. */
  predicate HasMedia(preview: Option<string>) {
    preview.Some? && preview.value != ""
  }

  /** The condition under which a send is ignored; the send button is
      disabled under the same condition. */
  predicate SendDisabled(inputText: string, mediaPreview: Option<string>, isLoading: bool) {
    (IsBlank(inputText) && !HasMedia(mediaPreview)) || isLoading
  }

  /** The offer a text-only send would make instead of calling the gateway. */
  function OfferFor(inputText: string, mediaPreview: Option<string>): (r: Option<Offer>)
    ensures r.Some? <==> !IsBlank(inputText) && !HasMedia(mediaPreview) && CheckMarketplace(Trim(inputText)).Some?
    ensures r.Some? ==> r.value.query == Trim(inputText) && r.value.matches == CheckMarketplace(Trim(inputText)).value
  {
    if !IsBlank(inputText) && !HasMedia(mediaPreview) then
      match CheckMarketplace(Trim(inputText))
      case Some(matches) => Some(Offer(Trim(inputText), matches))
      case None => None
    else None
  }

  /** A JavaScript string or `null` as a JSON value. */
  function OptionValue(o: Option<string>): (v: Value)
    ensures v.Null? <==> o.None?
    ensures o.Some? ==> v == Str(o.value)
  {
    if o.Some? then Str(o.value) else Null
  }

  /** A JavaScript string or `null` interpolated into a template or appended
      to a form. */
  function JsText(o: Option<string>): (s: string)
    ensures o.Some? ==> s == o.value
    ensures o.None? ==> s == "null"
  {
    if o.Some? then o.value else "null"
  }

  /** The file name of inlined media: `<mediaType>.jpg` for images and
      `<mediaType>.webm` otherwise. */
  function MediaFileName(mediaType: Option<string>): (name: string)
    ensures mediaType == Some("image") ==> name == "image.jpg"
    ensures mediaType != Some("image") ==> name == JsText(mediaType) + ".webm"
  {
    JsText(mediaType) + "." + (if mediaType == Some("image") then "jpg" else "webm")
  }

  /** The form of a send: the text when it is non-empty; then, when media is
      present, a file part (only for a `data:` URL; a `blob:` URL of a
      recording is a string, not a `Blob`, and is not attached) and the media
      type. */
  function FormFields(text: string, media: Option<string>, mediaType: Option<string>): (form: seq<FormPart>)
    ensures TextField("text", text) in form <==> text != ""
    ensures (exists i :: 0 <= i < |form| && form[i].FilePart?)
        <==> HasMedia(media) && StartsWith(media.value, "data:")
    ensures HasMedia(media) && StartsWith(media.value, "data:") ==> FilePart("media", MediaFileName(mediaType)) in form
    ensures TextField("mediaType", JsText(mediaType)) in form <==> HasMedia(media)
    ensures |form| == (if text != "" then 1 else 0)
                    + (if HasMedia(media) && StartsWith(media.value, "data:") then 1 else 0)
                    + (if HasMedia(media) then 1 else 0)
    ensures text != "" ==> form[0] == TextField("text", text)
    ensures HasMedia(media) ==> form[|form| - 1] == TextField("mediaType", JsText(mediaType))
    ensures HasMedia(media) && StartsWith(media.value, "data:") ==>
      form[|form| - 2] == FilePart("media", MediaFileName(mediaType))
  {
    var textPart := if text != "" then [TextField("text", text)] else [];
    var filePart :=
      if HasMedia(media) && StartsWith(media.value, "data:") then [FilePart("media", MediaFileName(mediaType))] else [];
    var typePart := if HasMedia(media) then [TextField("mediaType", JsText(mediaType))] else [];
    var form := textPart + filePart + typePart;
    assert filePart != [] ==> form[|textPart|] == filePart[0];
    form
  }

  /** `handleFileChange` keeps the part of the MIME type before the first
      `/`. */
  function MimePrefix(mime: string): (prefix: string)
    ensures prefix <= mime && '/' !in prefix
    ensures |prefix| < |mime| ==> mime[|prefix|] == '/'
  {
    SplitOn(mime, '/')[0]
  }

  /** The prefix ends at the first `/`, or is the whole type when it has
      none. */
  lemma MimePrefixIsBeforeFirstSlash(mime: string, k: nat)
    requires k <= |mime|
    requires forall j :: 0 <= j < k ==> mime[j] != '/'
    requires k < |mime| ==> mime[k] == '/'
    ensures MimePrefix(mime) == mime[..k]
  {
  }

  /** The bot's answer to a dispatched send: the reply's `message`, or a
      default when that is missing or falsy; media fields default to `null`.
      A failed request, and a reply that is JSON `null` (reading `.message`
      of it throws), give the apology. */
  function SendReply(result: Result<Value, string>, id: int): (m: ChatMessage)
    ensures m.id == id && m.sender == Bot
    ensures result.Err? || result.value.Null? ==> m == ChatMessage(id, Bot, Str(SendFailureText), Null, Null)
    ensures result.Ok? && result.value.Dict? ==>
      && m.text == OrElse(Lookup(result.value.entries, "message"), Str(SendDefaultText))
      && m.media == OrElse(Lookup(result.value.entries, "media"), Null)
      && m.mediaType == OrElse(Lookup(result.value.entries, "mediaType"), Null)
    ensures result.Ok? && !result.value.Null? && !result.value.Dict? ==>
      m == ChatMessage(id, Bot, Str(SendDefaultText), Null, Null)
  {
    match result
    case Err(_) => ChatMessage(id, Bot, Str(SendFailureText), Null, Null)
    case Ok(data) =>
      match GetProp(data, "message")
      case Err(_) => ChatMessage(id, Bot, Str(SendFailureText), Null, Null)
      case Ok(message) =>
        var media := GetProp(data, "media");
        var mediaType := GetProp(data, "mediaType");
        ChatMessage(id, Bot, OrElse(message, Str(SendDefaultText)),
                    OrElse(media.value, Null), OrElse(mediaType.value, Null))
  }

  /** The trimmed input, or the placeholder text when it is blank. */
  function RecordUserText(inputText: string): (text: string)
    ensures IsBlank(inputText) ==> text == RecordPlaceholderText
    ensures !IsBlank(inputText) ==> text == Trim(inputText)
  {
    var prompt := Trim(inputText);
    if prompt != "" then prompt else RecordPlaceholderText
  }

  /** The prompt "record new" sends: the trimmed input, or the catalog title
      "Autonomous Floor Cleaner" when it is blank. It is never blank. */
  function RecordPrompt(inputText: string): (prompt: string)
    ensures IsBlank(inputText) ==> prompt == RecordFallbackPrompt
    ensures !IsBlank(inputText) ==> prompt == Trim(inputText)
  {
    var trimmed := Trim(inputText);
    if trimmed != "" then trimmed else RecordFallbackPrompt
  }

  /** The prompt "record new" sends is never blank. */
  lemma RecordPromptNotBlank(inputText: string)
    ensures !IsBlank(RecordPrompt(inputText))
  {
    if IsBlank(inputText) {
      NotBlankIfStartsSolid(RecordFallbackPrompt);
    } else {
      TrimIdempotent(inputText);
    }
  }

  /** The bot's answer to "record new": the whole decoded reply when it is
      truthy, else a default; a failed request gives the apology. */
  function RecordReply(result: Result<Value, string>, id: int): (m: ChatMessage)
    ensures m.id == id && m.sender == Bot && m.media == Null && m.mediaType == Null
    ensures result.Err? ==> m.text == Str(RecordFailureText)
    ensures result.Ok? && Truthy(result.value) ==> m.text == result.value
    ensures result.Ok? && !Truthy(result.value) ==> m.text == Str(RecordDefaultText)
  {
    match result
    case Err(_) => ChatMessage(id, Bot, Str(RecordFailureText), Null, Null)
    case Ok(data) => ChatMessage(id, Bot, OrElse(Some(data), Str(RecordDefaultText)), Null, Null)
  }

  /** The bot's note after a marketplace fetch, quoting the instruction. */
  function MarketplaceNote(instruction: string, id: int): (m: ChatMessage)
    ensures m.id == id && m.sender == Bot && m.media == Null && m.mediaType == Null
    ensures m.text.Str? && Contains(m.text.s, "\"" + instruction + "\"")
  {
    var prefix := "I've obtained the ";
    var quoted := "\"" + instruction + "\"";
    var text := prefix + quoted + " instruction from our marketplace. You can now use it with your robot.";
    assert OccursAt(text, quoted, |prefix|) by {
      assert text[|prefix|..|prefix| + |quoted|] == quoted;
    }
    ChatMessage(id, Bot, Str(text), Null, Null)
  }

  /** A snapshot of the chat component's state. */
  datatype ChatState = ChatState(
    messages: seq<ChatMessage>,
    inputText: string,
    isLoading: bool,
    showMediaButtons: bool,
    mediaPreview: Option<string>,
    mediaType: Option<string>,
    marketplaceOptions: Option<Offer>)

  /** A state and what the send button led to. */
  datatype SendStep = SendStep(next: ChatState, outcome: SendOutcome)

  /** `handleSendMessage` up to its `fetch`: ignored when sending is
      disabled; a text-only message whose trimmed text matches a catalog
      title is shown and answered with an offer, without a request; anything
      else is shown with its media and dispatched, and the composer is
      reset. */
  function Send(s: ChatState, now: int): (r: SendStep)
    ensures r.outcome.Ignored? <==> SendDisabled(s.inputText, s.mediaPreview, s.isLoading)
    ensures r.outcome.Ignored? ==> r.next == s
    ensures !r.outcome.Ignored? ==>
      && |r.next.messages| == |s.messages| + 1
      && r.next.messages[..|s.messages|] == s.messages
      && r.next.messages[|s.messages|].id == now
      && r.next.messages[|s.messages|].sender == User
      && r.next.messages[|s.messages|].text == Str(s.inputText)
      && r.next.inputText == ""
    ensures r.outcome.Offered? <==>
      !SendDisabled(s.inputText, s.mediaPreview, s.isLoading) && OfferFor(s.inputText, s.mediaPreview).Some?
    ensures r.outcome.Offered? ==>
      && r.next.marketplaceOptions == OfferFor(s.inputText, s.mediaPreview)
      && r.next.messages[|s.messages|].media == Null
      && r.next.messages[|s.messages|].mediaType == Null
      && r.next.isLoading == s.isLoading && r.next.showMediaButtons == s.showMediaButtons
      && r.next.mediaPreview == s.mediaPreview && r.next.mediaType == s.mediaType
    ensures r.outcome.Dispatched? ==>
      && r.outcome.request == Outbound(s.inputText, FormFields(s.inputText, s.mediaPreview, s.mediaType))
      && r.next.messages[|s.messages|].media == OptionValue(s.mediaPreview)
      && r.next.messages[|s.messages|].mediaType == OptionValue(s.mediaType)
      && r.next.isLoading && !r.next.showMediaButtons
      && r.next.mediaPreview == None && r.next.mediaType == None
      && r.next.marketplaceOptions == s.marketplaceOptions
  {
    if SendDisabled(s.inputText, s.mediaPreview, s.isLoading) then SendStep(s, Ignored)
    else
      var offer := OfferFor(s.inputText, s.mediaPreview);
      if offer.Some? then
        var shown := ChatMessage(now, User, Str(s.inputText), Null, Null);
        SendStep(s.(messages := s.messages + [shown], inputText := "", marketplaceOptions := offer), Offered)
      else
        var shown := ChatMessage(now, User, Str(s.inputText), OptionValue(s.mediaPreview), OptionValue(s.mediaType));
        var request := Outbound(s.inputText, FormFields(s.inputText, s.mediaPreview, s.mediaType));
        SendStep(s.(messages := s.messages + [shown], inputText := "", isLoading := true,
                    mediaPreview := None, mediaType := None, showMediaButtons := false),
                 Dispatched(request))
  }

  /** The state of the chat component. */
  class ChatSession {
    var messages: seq<ChatMessage>
    var inputText: string
    var isLoading: bool
    var showMediaButtons: bool
    var mediaPreview: Option<string>
    var mediaType: Option<string>
    var marketplaceOptions: Option<Offer>

    /** The fields as one value. */
    function State(): ChatState
      reads this
    {
      ChatState(messages, inputText, isLoading, showMediaButtons, mediaPreview, mediaType, marketplaceOptions)
    }

    /** The state on first render: the welcome message and nothing else. */
    constructor ()
      ensures messages == [ChatMessage(1, Bot, Str(WelcomeText), Null, Null)]
      ensures inputText == "" && !isLoading && !showMediaButtons
      ensures mediaPreview == None && mediaType == None && marketplaceOptions == None
    {
      messages := [ChatMessage(1, Bot, Str(WelcomeText), Null, Null)];
      inputText := "";
      isLoading := false;
      showMediaButtons := false;
      mediaPreview := None;
      mediaType := None;
      marketplaceOptions := None;
    }

    /** Typing into the text area. */
    method SetInputText(text: string)
      modifies this
      ensures inputText == text
      ensures messages == old(messages) && isLoading == old(isLoading)
      ensures showMediaButtons == old(showMediaButtons) && mediaPreview == old(mediaPreview)
      ensures mediaType == old(mediaType) && marketplaceOptions == old(marketplaceOptions)
    {
      inputText := text;
    }

    /** The "+" button shows or hides the media buttons. */
    method ToggleMediaButtons()
      modifies this`showMediaButtons
      ensures showMediaButtons == !old(showMediaButtons)
    {
      showMediaButtons := !showMediaButtons;
    }

    /** `handleFileChange` up to the asynchronous read: without a file
      nothing happens; otherwise the media type becomes the MIME prefix. */
    method ChooseFile(fileMime: Option<string>)
      modifies this`mediaType
      ensures fileMime.None? ==> mediaType == old(mediaType)
      ensures fileMime.Some? ==> mediaType == Some(MimePrefix(fileMime.value))
    {
      if fileMime.Some? {
        mediaType := Some(MimePrefix(fileMime.value));
      }
    }

    /** The file reader finished: the preview is the file as a data URL. */
    method PreviewLoaded(dataUrl: string)
      modifies this`mediaPreview
      ensures mediaPreview == Some(dataUrl)
    {
      mediaPreview := Some(dataUrl);
    }

    /** `clearMediaPreview`. */
    method ClearMediaPreview()
      modifies this`mediaPreview, this`mediaType
      ensures mediaPreview == None && mediaType == None
    {
      mediaPreview := None;
      mediaType := None;
    }

    /** `handleSendMessage` up to its `fetch`. */
    method SendMessage(now: int) returns (outcome: SendOutcome)
      modifies this
      ensures State() == Send(old(State()), now).next
      ensures outcome == Send(old(State()), now).outcome
    {
      var step := Send(State(), now);
      messages := step.next.messages;
      inputText := step.next.inputText;
      isLoading := step.next.isLoading;
      showMediaButtons := step.next.showMediaButtons;
      mediaPreview := step.next.mediaPreview;
      mediaType := step.next.mediaType;
      marketplaceOptions := step.next.marketplaceOptions;
      outcome := step.outcome;
    }

    /** The rest of `handleSendMessage`: one bot message, then loading
      ends. */
    method ReceiveReply(now: int, result: Result<Value, string>)
      modifies this`messages, this`isLoading
      ensures messages == old(messages) + [SendReply(result, now + 1)]
      ensures !isLoading
    {
      messages := messages + [SendReply(result, now + 1)];
      isLoading := false;
    }

    /** The "get from marketplace" button, shown only while an offer is
      pending, calls `handleGetFromMarketplace` with the offer's query; this
      is the handler up to its timer, and it returns that query. */
    method GetFromMarketplace() returns (instruction: string)
      requires marketplaceOptions.Some?
      modifies this`isLoading, this`marketplaceOptions
      ensures instruction == old(marketplaceOptions).value.query
      ensures isLoading && marketplaceOptions == None
    {
      instruction := marketplaceOptions.value.query;
      isLoading := true;
      marketplaceOptions := None;
    }

    /** The timer of `handleGetFromMarketplace` fired. */
    method MarketplaceFetched(now: int, instruction: string)
      modifies this`messages, this`isLoading
      ensures messages == old(messages) + [MarketplaceNote(instruction, now)]
      ensures !isLoading
    {
      messages := messages + [MarketplaceNote(instruction, now)];
      isLoading := false;
    }

    /** `handleRecordNew` up to its `fetch`; returns the prompt it sends. */
    method RecordNew(now: int) returns (prompt: string)
      modifies this`messages, this`isLoading, this`marketplaceOptions
      ensures marketplaceOptions == None
      ensures messages == old(messages) + [ChatMessage(now, User, Str(RecordUserText(old(inputText))), Null, Null)]
      ensures isLoading
      ensures prompt == RecordPrompt(old(inputText))
    {
      marketplaceOptions := None;
      var typed := inputText;
      messages := messages + [ChatMessage(now, User, Str(RecordUserText(typed)), Null, Null)];
      isLoading := true;
      prompt := RecordPrompt(typed);
    }

    /** The rest of `handleRecordNew`: one bot message; a success also
      clears the input; loading ends either way. */
    method ReceiveRecordReply(now: int, result: Result<Value, string>)
      modifies this`messages, this`isLoading, this`inputText
      ensures messages == old(messages) + [RecordReply(result, now + 1)]
      ensures inputText == if result.Ok? then "" else old(inputText)
      ensures !isLoading
    {
      messages := messages + [RecordReply(result, now + 1)];
      if result.Ok? {
        inputText := "";
      }
      isLoading := false;
    }
  }

  /** A send that makes an offer: the text is shown without media, the
      input is cleared, loading stays off, and the offer carries the trimmed
      text as its query. */
  method SendWithOffer(session: ChatSession, sendTime: int) returns (outcome: SendOutcome)
    requires !session.isLoading && OfferFor(session.inputText, session.mediaPreview).Some?
    modifies session
    ensures outcome == Offered
    ensures session.messages == old(session.messages) + [ChatMessage(sendTime, User, Str(old(session.inputText)), Null, Null)]
    ensures session.inputText == "" && !session.isLoading
    ensures session.marketplaceOptions.Some? && session.marketplaceOptions.value.query == Trim(old(session.inputText))
  {
    outcome := session.SendMessage(sendTime);
  }

  /** Pressing "get from marketplace" and letting its timer fire: one note
      quoting the offer's query, the offer gone, loading over. */
  method TakeOffer(session: ChatSession, fetchTime: int)
    requires session.marketplaceOptions.Some?
    modifies session
    ensures session.messages == old(session.messages) + [MarketplaceNote(old(session.marketplaceOptions).value.query, fetchTime)]
    ensures session.inputText == old(session.inputText) && !session.isLoading && session.marketplaceOptions == None
  {
    var instruction := session.GetFromMarketplace();
    session.MarketplaceFetched(fetchTime, instruction);
  }

  /** The offer-then-get sequence: a text-only message that matches the
      catalog is shown and answered with an offer; taking the offer from the
      marketplace then adds a note quoting the trimmed text. */
  method OfferThenGetFromMarketplace(session: ChatSession, sendTime: int, fetchTime: int)
    returns (outcome: SendOutcome)
    requires !session.isLoading && OfferFor(session.inputText, session.mediaPreview).Some?
    modifies session
    ensures outcome == Offered
    ensures session.messages == old(session.messages)
      + [ChatMessage(sendTime, User, Str(old(session.inputText)), Null, Null)]
      + [MarketplaceNote(Trim(old(session.inputText)), fetchTime)]
    ensures session.inputText == "" && !session.isLoading && session.marketplaceOptions == None
  {
    outcome := SendWithOffer(session, sendTime);
    TakeOffer(session, fetchTime);
  }

  /** The offer-then-record-new sequence: a text-only message that matches
      the catalog pauses with an offer and clears the input, so pressing
      "record new" next, with nothing typed in between, sends the fallback
      prompt, not the text that was sent. */
  method OfferThenRecordNew(text: string, sendTime: int, recordTime: int)
    returns (outcome: SendOutcome, prompt: string)
    requires OfferFor(text, None).Some?
    ensures outcome == Offered
    ensures prompt == RecordFallbackPrompt
  {
    var session := new ChatSession();
    session.SetInputText(text);
    outcome := session.SendMessage(sendTime);
    prompt := session.RecordNew(recordTime);
  }

  /** With nothing typed, "record new" shows the placeholder and sends the
      fallback prompt. */
  lemma RecordOfEmptyInput()
    ensures RecordUserText("") == RecordPlaceholderText
    ensures RecordPrompt("") == RecordFallbackPrompt
  {
    assert IsBlank("");
  }

  lemma LowerFallbackPrompt()
    ensures Lower(RecordFallbackPrompt) == "autonomous floor cleaner"
  {
  }

  /** The lowercased catalog titles, and whether each contains the two
      queries the chat is known to send: "sorter" and the fallback prompt. */
  lemma BottleSorterProLower()
    ensures Lower(BottleSorterPro.title) == "bottle sorter pro"
  {
  }

  lemma BottleSorterProSorter()
    ensures TitleMatches(BottleSorterPro, "sorter")
  {
    BottleSorterProLower();
    assert Lower("sorter") == "sorter";
    assert "bottle sorter pro"[7..13] == "sorter";
    assert OccursAt("bottle sorter pro", "sorter", 7);
  }

  lemma BottleSorterProFallback()
    ensures !TitleMatches(BottleSorterPro, RecordFallbackPrompt)
  {
    BottleSorterProLower();
    LowerFallbackPrompt();
    NotContainsByPair("bottle sorter pro", "autonomous floor cleaner");
  }

  lemma PrecisionObjectPickupLower()
    ensures Lower(PrecisionObjectPickup.title) == "precision object pickup"
  {
  }

  lemma PrecisionObjectPickupSorter()
    ensures !TitleMatches(PrecisionObjectPickup, "sorter")
  {
    PrecisionObjectPickupLower();
    assert Lower("sorter") == "sorter";
    NotContainsByPair("precision object pickup", "sorter");
  }

  lemma PrecisionObjectPickupFallback()
    ensures !TitleMatches(PrecisionObjectPickup, RecordFallbackPrompt)
  {
    PrecisionObjectPickupLower();
    LowerFallbackPrompt();
    NotContainsByPair("precision object pickup", "autonomous floor cleaner");
  }

  lemma AutonomousFloorCleanerLower()
    ensures Lower(AutonomousFloorCleaner.title) == "autonomous floor cleaner"
  {
  }

  lemma AutonomousFloorCleanerSorter()
    ensures !TitleMatches(AutonomousFloorCleaner, "sorter")
  {
    AutonomousFloorCleanerLower();
    assert Lower("sorter") == "sorter";
    NotContainsByPair("autonomous floor cleaner", "sorter");
  }

  lemma AutonomousFloorCleanerFallback()
    ensures TitleMatches(AutonomousFloorCleaner, RecordFallbackPrompt)
  {
    AutonomousFloorCleanerLower();
    LowerFallbackPrompt();
    assert OccursAt("autonomous floor cleaner", "autonomous floor cleaner", 0);
  }

  lemma SmartShelfStockerLower()
    ensures Lower(SmartShelfStocker.title) == "smart shelf stocker"
  {
  }

  lemma SmartShelfStockerSorter()
    ensures !TitleMatches(SmartShelfStocker, "sorter")
  {
    SmartShelfStockerLower();
    assert Lower("sorter") == "sorter";
    NotContainsByPair("smart shelf stocker", "sorter");
  }

  lemma SmartShelfStockerFallback()
    ensures !TitleMatches(SmartShelfStocker, RecordFallbackPrompt)
  {
    SmartShelfStockerLower();
    LowerFallbackPrompt();
    NotContainsByPair("smart shelf stocker", "autonomous floor cleaner");
  }

  lemma DelicatePlantWatererLower()
    ensures Lower(DelicatePlantWaterer.title) == "delicate plant waterer"
  {
  }

  lemma DelicatePlantWatererSorter()
    ensures !TitleMatches(DelicatePlantWaterer, "sorter")
  {
    DelicatePlantWatererLower();
    assert Lower("sorter") == "sorter";
    NotContainsByPair("delicate plant waterer", "sorter");
  }

  lemma DelicatePlantWatererFallback()
    ensures !TitleMatches(DelicatePlantWaterer, RecordFallbackPrompt)
  {
    DelicatePlantWatererLower();
    LowerFallbackPrompt();
    NotContainsByPair("delicate plant waterer", "autonomous floor cleaner");
  }

  lemma KitchenHelperLower()
    ensures Lower(KitchenHelper.title) == "kitchen helper"
  {
  }

  lemma KitchenHelperSorter()
    ensures !TitleMatches(KitchenHelper, "sorter")
  {
    KitchenHelperLower();
    assert Lower("sorter") == "sorter";
    NotContainsByPair("kitchen helper", "sorter");
  }

  lemma KitchenHelperFallback()
    ensures !TitleMatches(KitchenHelper, RecordFallbackPrompt)
  {
    KitchenHelperLower();
    LowerFallbackPrompt();
    NotContainsByPair("kitchen helper", "autonomous floor cleaner");
  }

  lemma PackageSorterLower()
    ensures Lower(PackageSorter.title) == "package sorter"
  {
  }

  lemma PackageSorterSorter()
    ensures TitleMatches(PackageSorter, "sorter")
  {
    PackageSorterLower();
    assert Lower("sorter") == "sorter";
    assert "package sorter"[8..14] == "sorter";
    assert OccursAt("package sorter", "sorter", 8);
  }

  lemma PackageSorterFallback()
    ensures !TitleMatches(PackageSorter, RecordFallbackPrompt)
  {
    PackageSorterLower();
    LowerFallbackPrompt();
    NotContainsByPair("package sorter", "autonomous floor cleaner");
  }

  lemma ToolOrganizerLower()
    ensures Lower(ToolOrganizer.title) == "tool organizer"
  {
  }

  lemma ToolOrganizerSorter()
    ensures !TitleMatches(ToolOrganizer, "sorter")
  {
    ToolOrganizerLower();
    assert Lower("sorter") == "sorter";
    NotContainsByPair("tool organizer", "sorter");
  }

  lemma ToolOrganizerFallback()
    ensures !TitleMatches(ToolOrganizer, RecordFallbackPrompt)
  {
    ToolOrganizerLower();
    LowerFallbackPrompt();
    NotContainsByPair("tool organizer", "autonomous floor cleaner");
  }

  /** A title search for "sorter" finds Bottle Sorter Pro and Package
      Sorter, in that order. */
  lemma SorterMatches()
    ensures CheckMarketplace("sorter") == Some([BottleSorterPro, PackageSorter])
  {
    BottleSorterProSorter();
    PrecisionObjectPickupSorter();
    AutonomousFloorCleanerSorter();
    SmartShelfStockerSorter();
    DelicatePlantWatererSorter();
    KitchenHelperSorter();
    PackageSorterSorter();
    ToolOrganizerSorter();
    var p := (it: Item) => TitleMatches(it, "sorter");
    FilterEight(BottleSorterPro, PrecisionObjectPickup, AutonomousFloorCleaner, SmartShelfStocker,
                DelicatePlantWaterer, KitchenHelper, PackageSorter, ToolOrganizer, p);
    assert Filter(Catalog(), p) == [BottleSorterPro, PackageSorter] by {
      assert Catalog() == [BottleSorterPro, PrecisionObjectPickup, AutonomousFloorCleaner, SmartShelfStocker,
                DelicatePlantWaterer, KitchenHelper, PackageSorter, ToolOrganizer];
      assert Pick(BottleSorterPro, p) == [BottleSorterPro];
      assert Pick(PackageSorter, p) == [PackageSorter];
      assert Pick(ToolOrganizer, p) == [];
    }
    assert MatchingTitles(Catalog(), "sorter") == Some(Filter(Catalog(), p));
  }

  /** The fallback prompt of "record new" is the title of exactly one
      catalog entry, Autonomous Floor Cleaner. */
  lemma FallbackPromptMatches()
    ensures CheckMarketplace(RecordFallbackPrompt) == Some([AutonomousFloorCleaner])
  {
    BottleSorterProFallback();
    PrecisionObjectPickupFallback();
    AutonomousFloorCleanerFallback();
    SmartShelfStockerFallback();
    DelicatePlantWatererFallback();
    KitchenHelperFallback();
    PackageSorterFallback();
    ToolOrganizerFallback();
    var p := (it: Item) => TitleMatches(it, RecordFallbackPrompt);
    FilterEight(BottleSorterPro, PrecisionObjectPickup, AutonomousFloorCleaner, SmartShelfStocker,
                DelicatePlantWaterer, KitchenHelper, PackageSorter, ToolOrganizer, p);
    assert Filter(Catalog(), p) == [AutonomousFloorCleaner] by {
      assert Catalog() == [BottleSorterPro, PrecisionObjectPickup, AutonomousFloorCleaner, SmartShelfStocker,
                DelicatePlantWaterer, KitchenHelper, PackageSorter, ToolOrganizer];
      assert Pick(AutonomousFloorCleaner, p) == [AutonomousFloorCleaner];
      assert Pick(ToolOrganizer, p) == [];
    }
    assert MatchingTitles(Catalog(), RecordFallbackPrompt) == Some(Filter(Catalog(), p));
  }

  /** An uploaded PNG is an image. */
  lemma MimePrefixOfPng()
    ensures MimePrefix("image/png") == "image"
  {
    MimePrefixIsBeforeFirstSlash("image/png", 5);
  }

  /** An uploaded WebM file is a video. */
  lemma MimePrefixOfWebm()
    ensures MimePrefix("video/webm") == "video"
  {
    MimePrefixIsBeforeFirstSlash("video/webm", 5);
  }
}
