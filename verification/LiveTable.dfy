/** The live view's suggestion content (`emotion_responses` in
    liveemotiondetector.py): for each emotion, five quotes, five activities
    and five tasks. */
module LiveTable {
  import opened Common
  import opened Emotions

  /** The three suggestion categories, in the order `random.choice` draws
      from (`suggestion_types`). */
  datatype Kind = Quotes | Activities | Tasks

  const Kinds: seq<Kind> := [Quotes, Activities, Tasks]

  /** The category key, which the helper stores as its `suggestion_type`. */
  function KindName(k: Kind): string {
    match k
    case Quotes => "quotes"
    case Activities => "activities"
    case Tasks => "tasks"
  }

  /** A suggestion table: the candidates of each category for each emotion. */
  type Table = (Emotion, Kind) -> seq<string>

  /** `emotion_responses[emotion][kind]`, the table the live view uses. */
  function Pool(e: Emotion, k: Kind): seq<string> {
    match e
    case Angry =>
      (match k
      case Quotes => [
        "Take a deep breath. This too shall pass.",
        "Anger is one letter short of danger. Stay calm.",
        "You have power over your mind - not events. Realize this.",
        "The best revenge is massive success.",
        "Peace cannot be kept by force; it can only be achieved by understanding."
      ]
      case Activities => [
        "Try deep breathing: Inhale for 4, hold for 4, exhale for 4",
        "Take a 5-minute walk outside",
        "Listen to calming music",
        "Practice progressive muscle relaxation",
        "Write down your thoughts in a journal"
      ]
      case Tasks => [
        "Count backwards from 100 by 7s",
        "Name 5 things you can see, 4 you can touch, 3 you can hear",
        "Do 10 push-ups to release tension",
        "Call a friend or family member",
        "Practice gratitude: list 3 things you're thankful for"
      ])
    case Disgust =>
      (match k
      case Quotes => [
        "Focus on what brings you joy, not what disturbs you.",
        "You have the power to choose your thoughts.",
        "Redirect your energy toward positive things.",
        "This feeling will pass. You are in control.",
        "Find beauty in the world around you."
      ]
      case Activities => [
        "Listen to your favorite uplifting music",
        "Look at beautiful art or nature photos",
        "Do something that makes you feel clean and fresh",
        "Practice positive visualization",
        "Engage in a hobby you enjoy"
      ]
      case Tasks => [
        "Clean or organize your immediate space",
        "Focus on three beautiful things around you",
        "Practice positive affirmations",
        "Do something that makes you feel accomplished",
        "Shift your attention to something you love"
      ])
    case Fear =>
      (match k
      case Quotes => [
        "Courage is not the absence of fear, but action in spite of it.",
        "You are braver than you believe, stronger than you seem.",
        "Fear is temporary, regret is forever.",
        "The only way out is through.",
        "You've survived 100% of your worst days so far."
      ]
      case Activities => [
        "Practice grounding: 5-4-3-2-1 technique",
        "Do some gentle stretching or yoga",
        "Listen to guided meditation",
        "Take slow, deep breaths",
        "Hold a comforting object"
      ]
      case Tasks => [
        "Break down your worry into smaller, manageable steps",
        "Write down your fears and challenge them",
        "Practice positive self-talk",
        "Focus on what you can control",
        "Remind yourself of past challenges you've overcome"
      ])
    case Happy =>
      (match k
      case Quotes => [
        "Keep shining! Your happiness is contagious.",
        "You're doing great! Keep spreading those good vibes.",
        "Happiness looks good on you!",
        "Your smile can change the world.",
        "Life is beautiful, just like your smile!"
      ]
      case Activities => [
        "Share your joy with someone you care about",
        "Take a photo to remember this moment",
        "Do something nice for someone else",
        "Dance to your favorite song",
        "Spend time in nature"
      ]
      case Tasks => [
        "Write in a gratitude journal",
        "Plan a fun activity for later",
        "Compliment someone today",
        "Learn something new",
        "Set a positive goal for tomorrow"
      ])
    case Neutral =>
      (match k
      case Quotes => [
        "A calm mind brings inner strength and self-confidence.",
        "Peace comes from within. Do not seek it without.",
        "Sometimes the most productive thing you can do is relax.",
        "In the midst of chaos, find your center.",
        "Stillness is the key to clarity."
      ]
      case Activities => [
        "Try a new hobby or skill",
        "Read an interesting book",
        "Do some light exercise",
        "Organize your space",
        "Plan your day or week"
      ]
      case Tasks => [
        "Set three small goals for today",
        "Practice mindfulness for 5 minutes",
        "Reach out to a friend you haven't spoken to",
        "Learn one new fact about something interesting",
        "Do something that challenges you slightly"
      ])
    case Sad =>
      (match k
      case Quotes => [
        "Every storm runs out of rain. You will smile again.",
        "The sun will rise and we will try again.",
        "You are stronger than you think.",
        "It's okay to not be okay sometimes.",
        "This is a chapter, not your whole story."
      ]
      case Activities => [
        "Watch a funny movie or comedy show",
        "Listen to uplifting music",
        "Go for a walk in nature",
        "Call someone who makes you laugh",
        "Do something creative like drawing or writing"
      ]
      case Tasks => [
        "Write 3 things you accomplished today",
        "Look at photos that make you happy",
        "Do a random act of kindness",
        "Practice self-care: take a warm bath or shower",
        "Plan something to look forward to"
      ])
    case Surprise =>
      (match k
      case Quotes => [
        "Life is full of surprises. Embrace them!",
        "Expect the unexpected and you'll never be disappointed.",
        "Surprise is the greatest gift which life can grant us.",
        "Stay curious and open to new experiences.",
        "The best adventures begin with a surprise."
      ]
      case Activities => [
        "Try something completely new today",
        "Explore a new place or route",
        "Learn about a topic you've never studied",
        "Be spontaneous and do something unplanned",
        "Share your surprise with someone"
      ]
      case Tasks => [
        "Write down what surprised you and why",
        "Plan a surprise for someone else",
        "Try a new recipe or food",
        "Take a different route to a familiar place",
        "Ask someone a question you've never asked before"
      ])
  }

  /** The category a stored `suggestion_type` names, if any. */
  function ParseKind(name: string): (r: Option<Kind>)
    ensures r.Some? ==> KindName(r.value) == name
  {
    if name == "quotes" then Some(Quotes)
    else if name == "activities" then Some(Activities)
    else if name == "tasks" then Some(Tasks)
    else None
  }

  /** `text` is one of the suggestions of category `typeName` for `e` in `t`. */
  predicate Offers(t: Table, e: Emotion, typeName: string, text: string) {
    ParseKind(typeName).Some? && text in t(e, ParseKind(typeName).value)
  }

  /** Every category of every emotion holds five suggestions. */
  lemma PoolSize(e: Emotion, k: Kind)
    ensures |Pool(e, k)| == 5
  {
    // One emotion at a time: unfolding the whole table at once is more than
    // the solver can afford.
    match e
    case Angry => PoolSizeOfAngry(k);
    case Disgust => PoolSizeOfDisgust(k);
    case Fear => PoolSizeOfFear(k);
    case Happy => PoolSizeOfHappy(k);
    case Neutral => PoolSizeOfNeutral(k);
    case Sad => PoolSizeOfSad(k);
    case Surprise => PoolSizeOfSurprise(k);
  }

  lemma PoolSizeOfAngry(k: Kind) ensures |Pool(Angry, k)| == 5 {}
  lemma PoolSizeOfDisgust(k: Kind) ensures |Pool(Disgust, k)| == 5 {}
  lemma PoolSizeOfFear(k: Kind) ensures |Pool(Fear, k)| == 5 {}
  lemma PoolSizeOfHappy(k: Kind) ensures |Pool(Happy, k)| == 5 {}
  lemma PoolSizeOfNeutral(k: Kind) ensures |Pool(Neutral, k)| == 5 {}
  lemma PoolSizeOfSad(k: Kind) ensures |Pool(Sad, k)| == 5 {}
  lemma PoolSizeOfSurprise(k: Kind) ensures |Pool(Surprise, k)| == 5 {}
}
