/** The web application's suggestion engine (`SuggestionEngine` in
    moodsync/models/ai_suggestions.py): for a detected emotion, one random
    suggestion from each of its categories, and one random quote. Emotions
    missing from the tables are treated as Neutral.

    `random.choice` is an index parameter, any one in range. The engine's
    functions take the tables as parameters; the application's own tables
    are `SuggestionsDb` and `QuotesDb`. */
module SuggestionEngine {
  import opened Common
  import opened Emotions

  /** One category of suggestions, in the table's key order. */
  datatype Category = Category(name: string, items: seq<string>)

  /** `suggestions_db`: the categories of each emotion. */
  type Db = Emotion -> seq<Category>

  /** `quotes`: the quotes of each emotion. */
  type Quotes = Emotion -> seq<string>

  /** The application's `suggestions_db`. */
  function SuggestionsDb(e: Emotion): seq<Category> {
    match e
    case Angry => [
      Category("activities", [
        "Go for a vigorous walk or run to release tension",
        "Try punching a pillow or doing jumping jacks",
        "Listen to heavy music that matches your energy, then transition to calmer tunes"
      ]),
      Category("wellness", [
        "Practice the 4-7-8 breathing technique",
        "Try progressive muscle relaxation",
        "Count to 10 slowly before reacting to anything"
      ]),
      Category("productivity", [
        "Clean or organize something - channel anger into productivity",
        "Avoid making important decisions right now"
      ])
    ]
    case Disgust => [
      Category("activities", [
        "Clean or organize your immediate environment",
        "Take a shower or bath with refreshing scents",
        "Change your scenery - go to a different room or outside"
      ]),
      Category("wellness", [
        "Practice acceptance meditation",
        "Focus on pleasant sensory experiences (nice smells, textures)"
      ]),
      Category("productivity", [
        "Work on tasks requiring analytical thinking",
        "Channel the energy into constructive criticism or reviews"
      ])
    ]
    case Fear => [
      Category("activities", [
        "Write down your specific fears and challenge them with facts",
        "Watch a comforting movie or show you've seen before",
        "Call a trusted friend who helps you feel safe"
      ]),
      Category("wellness", [
        "Try box breathing: 4 counts in, hold 4, out 4, hold 4",
        "Practice grounding: name 5 things you can see, 4 you can touch, 3 you can hear",
        "Progressive muscle relaxation from head to toe"
      ]),
      Category("productivity", [
        "Break tasks into very small, manageable steps",
        "Set a timer for just 5 minutes of work on something simple"
      ])
    ]
    case Happy => [
      Category("activities", [
        "Share your happiness! Call a friend or family member",
        "Channel this energy into a creative project",
        "Go for a walk in nature to maintain this positive mood",
        "Write down what made you happy today in a gratitude journal"
      ]),
      Category("wellness", [
        "Practice gratitude meditation to amplify positive feelings",
        "Do some light stretching or yoga to maintain good energy"
      ]),
      Category("productivity", [
        "This is a great time to tackle challenging tasks",
        "Use this positive energy to organize your workspace"
      ])
    ]
    case Neutral => [
      Category("activities", [
        "This is a good time to try something new",
        "Explore a new hobby or interest",
        "Organize your goals and plans for the week"
      ]),
      Category("wellness", [
        "Practice mindfulness meditation",
        "Do some gentle stretching"
      ]),
      Category("productivity", [
        "Perfect time for routine tasks and planning",
        "Review your recent achievements and set new goals"
      ])
    ]
    case Sad => [
      Category("activities", [
        "Listen to uplifting music or your favorite comfort playlist",
        "Watch a funny movie or comedy show",
        "Call someone you trust and talk about your feelings",
        "Take a warm bath or shower to comfort yourself"
      ]),
      Category("wellness", [
        "Try deep breathing exercises: 4 counts in, 6 counts out",
        "Practice self-compassion meditation",
        "Write your feelings in a journal without judgment"
      ]),
      Category("social", [
        "Reach out to a supportive friend or family member",
        "Consider joining an online support community"
      ])
    ]
    case Surprise => [
      Category("activities", [
        "Journal about what surprised you and what you learned",
        "Share your experience with someone you trust",
        "Use this energy to try something new today"
      ]),
      Category("wellness", [
        "Take a few deep breaths to center yourself",
        "Practice mindfulness to fully process the surprise"
      ]),
      Category("productivity", [
        "Brainstorm creative solutions to problems",
        "Use this alertness for learning something new"
      ])
    ]
  }

  /** The application's `quotes`. */
  function QuotesDb(e: Emotion): seq<string> {
    match e
    case Angry => [
      "Take a deep breath. You have the power to choose your response.",
      "Anger is like a storm - intense but temporary.",
      "Your peace of mind is worth more than proving you're right."
    ]
    case Disgust => [
      "Your reactions are information, not commands.",
      "You can choose which thoughts to focus on.",
      "This feeling will pass, just like clouds in the sky."
    ]
    case Fear => [
      "Courage is feeling fear and doing it anyway.",
      "This moment is just one page in your story, not the whole book.",
      "You've overcome difficult things before, and you can do it again."
    ]
    case Happy => [
      "Keep shining bright! Your positive energy is contagious.",
      "Happiness is not a destination, it's a way of travel.",
      "Your smile is your superpower today!"
    ]
    case Neutral => [
      "Today is full of possibilities waiting to be discovered.",
      "Sometimes the middle ground is where wisdom lives.",
      "Balance gives you the foundation to build anything."
    ]
    case Sad => [
      "It's okay to not be okay. This feeling will pass.",
      "You are stronger than you think, and this too shall pass.",
      "Every storm runs out of rain. Better days are coming."
    ]
    case Surprise => [
      "Life's surprises often lead to the greatest discoveries.",
      "The unexpected moments often teach us the most.",
      "Embrace the unknown - that's where growth happens."
    ]
  }

  /** The emotion a lookup uses: the named one when the tables have it,
      Neutral otherwise. */
  function Resolve(emotion: string): (e: Emotion)
    ensures Parse(emotion).Some? ==> e == Parse(emotion).value && Name(e) == emotion
    ensures Parse(emotion).None? ==> e == Neutral
  {
    match Parse(emotion)
    case Some(e) => e
    case None => Neutral
  }

  /** One returned suggestion: its category, its text and the emotion it was
      chosen for. */
  datatype Suggestion = Suggestion(kind: string, content: string, emotion: string)

  /** One `random.choice` outcome per category, each within its category. */
  predicate PicksFit(cats: seq<Category>, picks: seq<nat>) {
    |picks| == |cats| && forall i :: 0 <= i < |picks| ==> picks[i] < |cats[i].items|
  }

  /** The loop over categories: the chosen item of each, in order. */
  function PickEach(cats: seq<Category>, picks: seq<nat>, emotion: string): (r: seq<Suggestion>)
    requires PicksFit(cats, picks)
    ensures |r| == |cats|
    ensures forall i :: 0 <= i < |r| ==>
              r[i].kind == cats[i].name && r[i].content in cats[i].items && r[i].emotion == emotion
  {
    if |cats| == 0 then []
    else
      var first := Suggestion(cats[0].name, cats[0].items[picks[0]], emotion);
      [first] + PickEach(cats[1..], picks[1..], emotion)
  }

  /** `get_suggestions(emotion)`: exactly one suggestion per category of the
      resolved emotion, in the table's category order, each drawn from its
      category and tagged with the resolved emotion's name. */
  function GetSuggestions(db: Db, emotion: string, picks: seq<nat>): (r: seq<Suggestion>)
    requires PicksFit(db(Resolve(emotion)), picks)
    ensures |r| == |db(Resolve(emotion))|
    ensures forall i :: 0 <= i < |r| ==>
              && r[i].kind == db(Resolve(emotion))[i].name
              && r[i].content in db(Resolve(emotion))[i].items
              && r[i].emotion == Name(Resolve(emotion))
  {
    PickEach(db(Resolve(emotion)), picks, Name(Resolve(emotion)))
  }

  /** An emotion the tables lack gets Neutral's suggestions, reported as
      Neutral's. */
  lemma UnknownEmotionIsNeutral(db: Db, emotion: string, picks: seq<nat>)
    requires Parse(emotion).None?
    requires PicksFit(db(Neutral), picks)
    ensures GetSuggestions(db, emotion, picks) == GetSuggestions(db, "Neutral", picks)
    ensures forall s :: s in GetSuggestions(db, emotion, picks) ==> s.emotion == "Neutral"
  {
    assert Resolve("Neutral") == Neutral;
  }

  /** `get_personalized_quote(emotion)`: one of the resolved emotion's quotes. */
  function GetPersonalizedQuote(quotes: Quotes, emotion: string, pick: nat): (r: string)
    requires pick < |quotes(Resolve(emotion))|
    ensures r in quotes(Resolve(emotion))
    ensures Parse(emotion).None? ==> r in quotes(Neutral)
  {
    quotes(Resolve(emotion))[pick]
  }

  /** The application's tables give every emotion three categories. */
  lemma ThreeCategories(e: Emotion)
    ensures |SuggestionsDb(e)| == 3
  {
    // One literal lookup at a time: unfolding the whole table at once is
    // more than the solver can afford.
    match e
    case Angry => ThreeCategoriesOfAngry();
    case Disgust => ThreeCategoriesOfDisgust();
    case Fear => ThreeCategoriesOfFear();
    case Happy => ThreeCategoriesOfHappy();
    case Neutral => ThreeCategoriesOfNeutral();
    case Sad => ThreeCategoriesOfSad();
    case Surprise => ThreeCategoriesOfSurprise();
  }

  lemma ThreeCategoriesOfAngry() ensures |SuggestionsDb(Angry)| == 3 {}
  lemma ThreeCategoriesOfDisgust() ensures |SuggestionsDb(Disgust)| == 3 {}
  lemma ThreeCategoriesOfFear() ensures |SuggestionsDb(Fear)| == 3 {}
  lemma ThreeCategoriesOfHappy() ensures |SuggestionsDb(Happy)| == 3 {}
  lemma ThreeCategoriesOfNeutral() ensures |SuggestionsDb(Neutral)| == 3 {}
  lemma ThreeCategoriesOfSad() ensures |SuggestionsDb(Sad)| == 3 {}
  lemma ThreeCategoriesOfSurprise() ensures |SuggestionsDb(Surprise)| == 3 {}

  /** With the application's tables, every call returns three suggestions. */
  lemma ThreeSuggestions(emotion: string, picks: seq<nat>)
    requires PicksFit(SuggestionsDb(Resolve(emotion)), picks)
    ensures |GetSuggestions(SuggestionsDb, emotion, picks)| == 3
  {
    ThreeCategories(Resolve(emotion));
  }
}
