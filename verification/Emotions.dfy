/** The seven emotion classes the classifier predicts, in the order of its
    output vector (moodsync/config.py `EMOTION_LABELS`, and the `labels`
    dictionaries of the live detector and the HTTP API). */
module Emotions {
  import opened Common

  datatype Emotion = Angry | Disgust | Fear | Happy | Neutral | Sad | Surprise

  /** Output position k of the classifier means `Labels[k]`. */
  const Labels: seq<Emotion> := [Angry, Disgust, Fear, Happy, Neutral, Sad, Surprise]

  /** The label text used as dictionary key and shown to the user. */
  function Name(e: Emotion): string {
    match e
    case Angry => "Angry"
    case Disgust => "Disgust"
    case Fear => "Fear"
    case Happy => "Happy"
    case Neutral => "Neutral"
    case Sad => "Sad"
    case Surprise => "Surprise"
  }

  /** The output position of an emotion's class. */
  function Index(e: Emotion): (k: nat)
    ensures k < |Labels| && Labels[k] == e
  {
    match e
    case Angry => 0
    case Disgust => 1
    case Fear => 2
    case Happy => 3
    case Neutral => 4
    case Sad => 5
    case Surprise => 6
  }

  /** Which label a string names, if any: the `emotion in table` test of
      every lookup keyed by label text. */
  function Parse(s: string): (r: Option<Emotion>)
    ensures r.Some? ==> Name(r.value) == s
  {
    if s == "Angry" then Some(Angry)
    else if s == "Disgust" then Some(Disgust)
    else if s == "Fear" then Some(Fear)
    else if s == "Happy" then Some(Happy)
    else if s == "Neutral" then Some(Neutral)
    else if s == "Sad" then Some(Sad)
    else if s == "Surprise" then Some(Surprise)
    else None
  }

  /** Every label text is recognised as the label it names. */
  lemma ParseName(e: Emotion)
    ensures Parse(Name(e)) == Some(e)
  {
  }

  /** Labels lists every emotion exactly once. */
  lemma LabelsEnumerate(e: Emotion)
    ensures e in Labels
    ensures forall i, j :: 0 <= i < j < |Labels| ==> Labels[i] != Labels[j]
  {
  }
}
