# MoodSync decision logic in Dafny

MoodSync is a Flask web application with a companion webcam program. It
detects a user's emotion from a face image and answers with wellness
suggestions. It also keeps a mood journal in SQLite.

Around its library calls (OpenCV, TensorFlow, PIL, SQLite, werkzeug) sit
small decision procedures, and this project models them:

- the live view's suggestion debouncer (`EmotionHelper.get_suggestion`) and
  the 'n' key that forces a redraw;
- the suggestion panel's greedy word wrapper (`wrap_text`);
- the face-to-label pipeline:
  - the three-tier cascade fallback;
  - the padded and clamped face crop;
  - feature scaling;
  - the arg-max label and its two confidence thresholds (`> 0.4` live, `< 0.3` rejected by the API);
  - the API's channel dispatch and its ordered failure taxonomy;
  - the simpler unpadded, unthresholded `EmotionDetector` class;
- the suggestion engine's Neutral fallback and its one pick per category;
- the pure parts of `DatabaseManager`:
  - the LIMIT rule;
  - the dominant emotion, the average intensity and the streak;
  - the dynamic `UPDATE` builder;
- the web layer's checks:
  - the upload-extension filter;
  - the register, login, profile and password validations;
  - the `next` redirect guard;
  - the `detect_emotion` snapshot naming and payload;
  - the `save_mood` defaults.

How the outside world appears in the model:

- OpenCV calls, the Keras network and base64/PIL decoding are function-valued
  parameters; only the policy around them is modelled.
- `random.choice` is an index parameter that may be any position in range.
- `time.time()` and `date.today()` are parameters, and days are integer
  ordinals.
- SQL query results are inputs, and the statements built are outputs.
- Probabilities and pixel scaling are exact reals.

One module per file:

| file | module | models |
|---|---|---|
| Common.dfy | `Common` | `Option`/`Result`, bytes, Python `isspace`, `startswith`, ASCII `lower` |
| Emotions.dfy | `Emotions` | the seven labels in classifier order |
| Grids.dfy | `Grids` | numpy 2-D arrays, Python slice clamping |
| Vision.dfy | `Vision` | cascade tiers, padded crop, `extract_features`, arg-max, thresholds |
| TextWrap.dfy | `TextWrap` | `str.split()`, `' '.join`, `wrap_text` |
| LiveTable.dfy | `LiveTable` | `emotion_responses` |
| LiveHelper.dfy | `LiveHelper` | `EmotionHelper` |
| LiveLoop.dfy | `LiveLoop` | per-face handling and key handling of the webcam loop |
| Json.dfy | `Json` | decoded request bodies, Python truthiness, `dict.get` |
| DataUrl.dfy | `DataUrl` | the two data-URL header strips |
| EmotionApi.dfy | `EmotionApi` | moodsync/emotion_api.py |
| Detector.dfy | `Detector` | moodsync/models/emotion_detector.py |
| SuggestionEngine.dfy | `SuggestionEngine` | moodsync/models/ai_suggestions.py |
| PyInt.dfy | `PyInt` | Python `int(s)` and `str(n)` |
| Database.dfy | `Database` | moodsync/models/database.py |
| Forms.dfy | `Forms` | the form checks of moodsync/app.py |
| Routes.dfy | `Routes` | `detect_emotion` and `save_mood` of moodsync/app.py |

The login model (`Forms.Login`) takes the redirect guard as a parameter.
The application's guard is `Forms.NextTargetAsWritten`; the corrected one
is `Forms.NextTarget`; see "## Findings".

## Model

| member | source | states |
|---|---|---|
| Emotions.Index | moodsync/config.py:20 | position k of the classifier output names emotion `Labels[k]`; every emotion has its position |
| Emotions.ParseName | moodsync/config.py:20 | every label's text is recognised as that label, so table lookups keyed by label text find it |
| Emotions.LabelsEnumerate | moodsync/config.py:20 | the label list contains every emotion, each exactly once |
| Grids.SliceSpan | liveemotiondetector.py:362-363 | Python's `a[start:stop]` keeps exactly the indices in [start, stop) that lie on the axis; a stop before the start keeps nothing |
| Grids.Crop | liveemotiondetector.py:362-363 | a 2-D slice has the spans' shape, and pixel (i, j) of the crop is pixel (lo+i, lo+j) of the frame |
| Vision.DetectFacesImproved | liveemotiondetector.py:253-285 | a later cascade tier runs only when every earlier one found nothing; the faces returned are those of the last tier run; stopping before the third tier means faces were found |
| Vision.NoFacesIffAllTiersEmpty | liveemotiondetector.py:259-285 | no face is reported exactly when all three tiers find none |
| Vision.PaddedSpan | liveemotiondetector.py:361-363 | the kept rows (columns) are exactly those within 10 pixels of the detection that lie inside the frame |
| Vision.PaddedCrop | liveemotiondetector.py:361-365 | the face region lies inside the frame and copies its pixels; it is empty exactly when the grown detection misses the frame |
| Vision.Normalise | moodsync/emotion_api.py:110-114 | every network input value is its pixel divided by 255 and lies in [0, 1] |
| Vision.ExtractFeatures | moodsync/emotion_api.py:100-114 | no features exactly for a missing or empty image; otherwise the equalised, resized image scaled to [0, 1] |
| Vision.ArgMax | liveemotiondetector.py:370-372 | the position of a largest probability, the first one on a tie |
| Vision.Classify | liveemotiondetector.py:370-372 | the label is the first most probable one and the confidence is its probability, which no other label's exceeds |
| Vision.LiveVerdict | liveemotiondetector.py:374 | the live view shows a prediction exactly when some probability is strictly above 0.4, and it shows the arg-max label |
| Vision.ApiAcceptsIffSomeReaches | moodsync/emotion_api.py:183-184 | the API keeps a prediction exactly when some probability is at least 0.3 (0.3 itself is kept) |
| TextWrap.Split | liveemotiondetector.py:306 | `str.split()` yields only non-empty whitespace-free words |
| TextWrap.SplitJoin | liveemotiondetector.py:311 | splitting words joined by single spaces gives the same words back |
| TextWrap.Place | liveemotiondetector.py:311-318 | one loop step keeps every word, in order, and keeps the closed lines well formed and filled |
| TextWrap.FillGroups | liveemotiondetector.py:310-318 | after the loop, the closed lines plus the open line hold exactly the input words, in order |
| TextWrap.WrapText | liveemotiondetector.py:304-323 | the lines hold exactly the input's words in order; there are no more lines than words (no words, no lines); no line is empty; each line is its words joined by single spaces; a line longer than the width is a single word; and the first word of each next line would not have fit on the line before |
| LiveTable.PoolSize | liveemotiondetector.py:53-215 | every category of every emotion in the live table offers five suggestions |
| LiveTable.ParseKind | liveemotiondetector.py:233 | a recognised category name is the name of that category |
| LiveHelper.GetSuggestion | liveemotiondetector.py:225-240 | the pair returned is the one the helper now holds, and the emotion is remembered; when the emotion changed or more than 30 s passed, a known emotion gets a suggestion from its own table under its category, with the timer set to now; otherwise suggestion, category and timer stay as before |
| LiveHelper.ForceRefresh | liveemotiondetector.py:451-453 | the 'n' key zeroes the timer and changes nothing else |
| LiveHelper.FirstCallDraws | liveemotiondetector.py:218-237 | a fresh helper always draws for the first known emotion it sees |
| LiveHelper.ForcedRefreshDraws | liveemotiondetector.py:451-453 | after 'n', the next call draws again even for an unchanged emotion, once the time is past 30 s |
| LiveHelper.SteadyWithinWindow | liveemotiondetector.py:228-240 | for the same emotion within 30 s (exactly 30 s included) the helper and the pair it returns are unchanged, whatever the random draw |
| LiveHelper.UnknownEmotionKeepsSuggestion | liveemotiondetector.py:232-239 | an emotion outside the table leaves suggestion, category and timer untouched and only replaces the remembered emotion |
| LiveHelper.RunConsistent | liveemotiondetector.py:217-240 | over any run of calls and 'n' presses, the helper shows either nothing or a genuine suggestion of the category it names |
| LiveHelper.HappyFirstQuote | liveemotiondetector.py:123-130 | with the program's table, the first draw of the first Happy quote shows that quote under "quotes" |
| LiveLoop.LiveTableDraws | liveemotiondetector.py:233-236 | with the program's table, any category position below 3 and item position below 5 is a draw `random.choice` can make for every emotion |
| LiveLoop.ProcessFace | liveemotiondetector.py:360-386 | a face whose grown region misses the frame is skipped; with no model nothing is predicted; a prediction of confidence at most 0.4 draws nothing; only a more confident one consults the helper, with the arg-max label; in every other case the helper is unchanged |
| LiveLoop.PanelTitle | liveemotiondetector.py:404-409 | the heading is "Motivational Quote" for quotes, "Suggested Activity" for activities, "Helpful Task" for tasks, and the generic "Suggestion" exactly when the category name is none of the three |
| LiveLoop.PanelLines | liveemotiondetector.py:418 | the suggestion panel keeps every word of the suggestion, and only a single-word line may be wider than 65 characters |
| LiveLoop.OnKey | liveemotiondetector.py:445-453 | the low byte of the key code decides: 'q' ends the loop, 'n' zeroes the timer, and anything else leaves the helper alone |
| LiveLoop.OnlyLowByteMatters | liveemotiondetector.py:445 | two key codes with the same low byte act alike |
| LiveLoop.NoKeyIsHarmless | liveemotiondetector.py:445-453 | no key press (code -1) neither quits nor touches the helper |
| Json.Truthy | moodsync/app.py:545-546 | a decoded value is false exactly when it is null, false, zero, or an empty string, list or object |
| Json.Get | moodsync/app.py:549-554 | `dict.get` gives the value under a present key and the default under an absent one |
| DataUrl.SecondField | moodsync/models/emotion_detector.py:68 | `split(',')[1]` exists exactly when there is a comma, and it is the comma-free text after the first comma |
| DataUrl.SecondFieldOfPair | moodsync/emotion_api.py:236 | a comma-free header and payload joined by a comma split back to the payload |
| DataUrl.SecondFieldOfJoin | moodsync/emotion_api.py:236 | the payload is recovered whatever follows it after a further comma |
| DataUrl.StripIfComma | moodsync/models/emotion_detector.py:67-68 | a string with no comma is kept whole; otherwise its second comma-separated field is kept |
| DataUrl.StripIfDataUrl | moodsync/emotion_api.py:235-236 | only a string starting with `data:image` is cut to its second field, and the cut fails exactly when it has no comma |
| DataUrl.DataUrlRoundTrip | moodsync/emotion_api.py:235-236 | a data URL built from a comma-free header and payload gives back exactly the payload through either strip |
| EmotionApi.ToGray | moodsync/emotion_api.py:125-135 | a 2-D array is used as is; 4 channels go through RGBA to gray and 3 through RGB to gray; any other channel count fails, naming the count |
| EmotionApi.AllPredictions | moodsync/emotion_api.py:190 | `all_predictions` maps each of the seven label names to its own probability and holds nothing else |
| EmotionApi.DetectFacesAndEmotions | moodsync/emotion_api.py:119-196 | checks run in order: channels, then any face, then a non-empty padded region of the first face, then features and model, then confidence below 0.3; a low-confidence failure carries the arg-max probability; a success reports the arg-max label (the earliest on a tie) and its maximal probability (at least 0.3), all predictions and the first face's box |
| EmotionApi.ConfidentImagesSucceed | moodsync/emotion_api.py:153-192 | a sound image with a usable first face, read by a loaded network that gives some label at least 0.3, always succeeds |
| EmotionApi.MentionsImage | moodsync/emotion_api.py:228 | `'image' in data` is key membership for an object and raises for a scalar |
| EmotionApi.ImagePayload | moodsync/emotion_api.py:226-236 | a 400 exactly for a missing or falsy body, or one without `image`; the payload decoded is the data-URL-stripped `image` string; any other malformed body is a server error |
| EmotionApi.DetectEmotionEndpoint | moodsync/emotion_api.py:208-262 | a missing model, then a missing cascade, answer 500; status 200 exactly when the body yields a decodable image, and then it carries the detection's success or its refusal; 400 exactly for a missing image; no other status |
| EmotionApi.DataUrlBodyDecodesPayload | moodsync/emotion_api.py:232-236 | a body holding a data URL reaches the decoder with exactly its payload |
| Detector.BoxCrop | moodsync/models/emotion_detector.py:93-96 | the face is exactly rows [y, y+h) and columns [x, x+w), clamped only by Python slicing, with no padding |
| Detector.BoxCropWithinPadded | moodsync/models/emotion_detector.py:96 | every pixel of this unpadded crop also lies in the padded crop of the other two paths |
| Detector.DetectFaces | moodsync/models/emotion_detector.py:77-90 | the faces are those of one pass over the gray image made exactly as the live view's first attempt (frontal cascade, scale factor 1.1, five neighbours, 30-pixel minimum, scale-image flag) but with no maximum face size |
| Detector.DetectorIsFirstTierUnbounded | moodsync/models/emotion_detector.py:82-88 | that pass is the live view's first tier with its 300-pixel maximum removed |
| Detector.ExtractFace | moodsync/models/emotion_detector.py:92-110 | an empty crop fails; otherwise the crop resized to 48 by 48, turned gray and divided by 255 |
| Detector.DetectEmotionFromImage | moodsync/models/emotion_detector.py:45-63 | an unreadable image, then an uninitialised detector, raise; no face gives nothing (`(None, 0.0)`); an empty first-face crop raises; a label is returned exactly when the first face's crop has pixels, and it is the arg-max of the network's output for that crop resized, grayed and scaled |
| Detector.AsPair | moodsync/models/emotion_detector.py:54-63 | nothing becomes `(None, 0.0)`, and a prediction becomes its label's name and its probability |
| Detector.NoThreshold | moodsync/models/emotion_detector.py:57-63 | a readable image on a working detector whose first face has pixels always yields the arg-max label of that face, however low its probability |
| Detector.ClassifyFace | moodsync/models/emotion_detector.py:117-131 | one face's entry fails exactly when its crop is empty; otherwise it echoes the face's box with the arg-max label and probability for that face |
| Detector.DetectEmotionFromFrame | moodsync/models/emotion_detector.py:112-133 | an uninitialised detector raises; otherwise one entry per detected face, in detection order, each the classification of that face; the call fails exactly when some face's crop is empty, and then with the empty-face error |
| SuggestionEngine.Resolve | moodsync/models/ai_suggestions.py:158-159 | a known emotion is looked up as itself; any other text becomes Neutral |
| SuggestionEngine.PickEach | moodsync/models/ai_suggestions.py:165-171 | one suggestion per category, in category order, each from its own category and tagged with the category and the emotion |
| SuggestionEngine.GetSuggestions | moodsync/models/ai_suggestions.py:157-173 | exactly one suggestion per category of the resolved emotion, in the table's order, each a member of its category, with the resolved emotion's name |
| SuggestionEngine.UnknownEmotionIsNeutral | moodsync/models/ai_suggestions.py:158-170 | an unknown emotion gets exactly Neutral's suggestions, reported as Neutral |
| SuggestionEngine.GetPersonalizedQuote | moodsync/models/ai_suggestions.py:175-179 | the quote is one of the resolved emotion's quotes, and one of Neutral's for an unknown emotion |
| SuggestionEngine.ThreeCategories | moodsync/models/ai_suggestions.py:6-117 | every emotion of the application's table has three categories |
| SuggestionEngine.ThreeSuggestions | moodsync/models/ai_suggestions.py:157-173 | with the application's table every call returns three suggestions |
| PyInt.ParseInt | moodsync/app.py:250 | a parsed text is, after stripping whitespace, a digit run with an optional sign; a negative result needs a `-`; a `+` never gives a negative; blank text never parses |
| PyInt.ParsePadded | moodsync/app.py:248-251 | text of surrounding whitespace, an optional `+` or `-`, and a digit run (single underscores allowed between digits) reads as the signed value of its digits |
| PyInt.ParseRender | moodsync/app.py:248-251 | `int(str(n)) == n` for every integer, so a browser-rendered number reads back as itself |
| Database.HistoryStatement | moodsync/models/database.py:91-98 | a LIMIT is appended only for a truthy limit (None and 0 mean none), and the text after `LIMIT ` is the limit as `str` writes it, which reads back as the limit |
| Database.DominantEmotion | moodsync/models/database.py:162 | no rows give no dominant emotion; otherwise it is the first row's, and with rows in count-descending order that is the emotion of a row no other row outnumbers |
| Database.FirstIsLargest | moodsync/models/database.py:112-122 | in count-descending rows the first row's count is the largest |
| Database.Present | moodsync/models/database.py:152 | `AVG` sees exactly the non-NULL intensities, each as often as it occurs |
| Database.Mean | moodsync/models/database.py:152-159 | the mean times the count is the sum |
| Database.AverageIntensity | moodsync/models/database.py:150-159 | 0.0 when no intensity is present; otherwise the mean of the present intensities |
| Database.AverageWithinBounds | moodsync/models/database.py:150-159 | when every present intensity lies in [lo, hi], so does their average |
| Database.DaysBack | moodsync/models/database.py:179-184 | the window of the n days ending today |
| Database.Streak | moodsync/models/database.py:175-184 | the streak is the largest k such that today and the k-1 days before it all have entries (0 when today has none); it never exceeds the number of days with entries, so the loop ends |
| Database.Given | moodsync/models/database.py:286-299 | a column appears with a value exactly when it was passed that value (not None) |
| Database.GivenKeepsOrder | moodsync/models/database.py:289-299 | the given columns keep the fixed order first_name, last_name, profile_image |
| Database.Clauses | moodsync/models/database.py:289-299 | one `column = ?` clause per given column, in the same order |
| Database.JoinCommaMarks | moodsync/models/database.py:304 | joining one-placeholder clauses with commas keeps one placeholder per clause |
| Database.UpdateSqlMarks | moodsync/models/database.py:304-305 | the UPDATE text has one placeholder per given column plus one for the id |
| Database.NothingGiven | moodsync/models/database.py:301-302 | with all three fields None nothing is given |
| Database.ProfileUpdate | moodsync/models/database.py:281-305 | no statement (the method returns False) exactly when all fields are None; otherwise clauses for the given fields in fixed order, parameters in the same order with the user id last, and exactly one placeholder per parameter |
| Forms.Extension | moodsync/app.py:41-42 | `rsplit('.', 1)[1]` exists exactly when there is a dot; it is the dot-free text after the last dot |
| Forms.AllowedFile | moodsync/app.py:40-42 | a name is allowed exactly when it has a dot, with no dot after it, followed by an allowed extension in any letter case |
| Forms.NoDotNotAllowed | moodsync/app.py:41 | a file name with no dot is never allowed |
| Forms.AllowedFileByExtension | moodsync/app.py:40-42 | a name is allowed exactly when the text after its last dot, lower-cased, is png, jpg or jpeg, whatever precedes the dot |
| Forms.Register | moodsync/app.py:123-150 | any blank field is rejected first, then unequal passwords, then a taken username, then a taken email; registration happens exactly when all checks pass and the insert succeeds |
| Forms.RegisterChecksFormFirst | moodsync/app.py:123-138 | an invalid form gets the same answer whatever the database holds |
| Forms.NextTargetAsWritten | moodsync/app.py:181-186 | as written: redirect to any non-empty `next` starting with `/`, else to the dashboard |
| Forms.OpenRedirect | moodsync/app.py:181-183 | the guard as written sends `//evil.example`, an address on another host, to the browser |
| Forms.NextTarget | moodsync/app.py:181-186 | corrected guard: a redirect target is always a same-site path equal to `next`; every same-site `next` is followed; a blank one goes to the dashboard |
| Forms.NextTargetNarrowsWritten | moodsync/app.py:181-186 | the corrected guard differs from the written one only where the written one leaves the site, and then goes to the dashboard |
| Forms.Login | moodsync/app.py:164-188 | blank credentials are rejected first, then a wrong password; a login happens exactly for present credentials with a matching password, and goes where the redirect guard sends `next` |
| Forms.LoginAsWrittenLeavesSite | moodsync/app.py:181-183 | with the guard as written, a valid login with `next=//evil.example` is redirected off the site |
| Forms.LoginStaysOnSite | moodsync/app.py:181-186 | with the corrected guard, every login redirect is a same-site path or the dashboard |
| Forms.GenderAccepted | moodsync/app.py:259-261 | a gender is accepted exactly when empty or one of male, female, other, prefer_not_to_say |
| Forms.GenderCaseMatters | moodsync/app.py:259 | the comparison is case-sensitive: `Male` is refused |
| Forms.CheckAge | moodsync/app.py:247-256 | an empty age is accepted; a non-integer is rejected as invalid; an integer outside [1, 120] as out of range |
| Forms.AgeOfRendered | moodsync/app.py:248-256 | an age sent as the text of an integer is accepted exactly when it lies in [1, 120] |
| Forms.ValidateProfile | moodsync/app.py:242-261 | name and email are required, then the age check, then the gender (empty, or male, female, other, prefer_not_to_say); an accepted age is in range and is the parsed text |
| Forms.ChangePassword | moodsync/app.py:360-378 | blank fields, then unconfirmed new passwords, are rejected before the current password is checked; a change needs all three |
| Forms.PasswordChecksFormFirst | moodsync/app.py:361-375 | an incomplete or unconfirmed form gets the same answer whatever the stored hash |
| Routes.SavedFileName | moodsync/app.py:444 | the snapshot name is the lower-cased label, then `_`, then exactly the uuid hex, then `.jpg` |
| Routes.SavedFileNameAllowed | moodsync/app.py:444 | every snapshot name passes the upload-extension filter |
| Routes.DetectEmotionRoute | moodsync/app.py:426-453 | up to the database write: a 400 exactly without `image_data`; a 400 exactly when the detector finds no face; a 500 exactly when `image_data` is not text or the detector raises; a detection happens exactly when the detector labels a face, and reports the label and confidence, and saves exactly when `save_image` is truthy, under the snapshot name, the text after the first comma |
| Routes.SnapshotPayload | moodsync/app.py:448 | whenever a snapshot sent as a data URL is saved, it is saved as exactly its payload |
| Routes.Lookup | moodsync/app.py:549-554 | a present key gives its value, an absent one the default |
| Routes.ImagePayload | moodsync/app.py:563-565 | no image unless it is truthy and starts with `data:image`; then its second field; a data URL without a comma, or a truthy non-string, fails |
| Routes.SaveMood | moodsync/app.py:535-594 | 401 when logged out, then 400 for a falsy body, then 400 for a falsy emotion; a 500 exactly for a non-object body, a malformed image, an image payload that is not base64, or a row the insert refuses; otherwise saved, carrying the emotion and the confidence, intensity and notes with defaults 0.0, 5 and '' |
| Routes.EmotionOnlyGetsDefaults | moodsync/app.py:549-558 | a body naming only the emotion is saved with every default and no image, unless the insert fails |
| Routes.OtherKeysIgnored | moodsync/app.py:549-555 | in a non-empty body, a key the handler does not read never changes the outcome |

## Left out

- Webcam capture, frame mirroring and blurring, drawing (`draw_text_with_background`, boxes, panels), `imshow` and the screenshot key: these are I/O and rendering. The loop over faces is modelled one face at a time (`LiveLoop.ProcessFace`); the composition over all faces of a frame and over all frames is not a separate member.
- `LiveLoop.ProcessFace`: the `try/except` around a prediction (a raising `predict` skips the face) is not modelled, because the network is a total function here.
- Model loading, cascade loading, `health_check`, `list_emotions` and the API's request logging: these are library setup and Flask plumbing. A missing model or cascade is an `Option`/flag parameter.
- OpenCV, Keras, PIL and base64 operations are opaque function parameters. Where a caller distinguishes one of their failures (an unreadable snapshot, an empty crop, a payload that is not base64) it is an error value; the other exceptions are listed below.
- EmotionApi.DetectFacesAndEmotions: the catch-all handler (moodsync/emotion_api.py:194-196) is not modelled. An exception raised by `cvtColor`, the blur, the detector or `predict` would give a 'Detection error' failure; here those calls are total.
- Vision.ExtractFeatures: the handler that returns nothing when `equalizeHist` or `resize` raises (moodsync/emotion_api.py:115-117) is not modelled; those calls are total here.
- float32 rounding: probabilities and pixel values are exact reals.
- Database.AverageIntensity: SQLite's `AVG`, passed through `float(...)`, is a double; the model's mean is an exact real. Intensities are modelled as integers, but the `INTEGER` column keeps a non-integral value (a JSON intensity such as 7.5 stored by `save_mood`, which `Routes.SaveMood` passes through as a JSON real) as REAL; such values are not modelled.
- `random.choice` is any in-range index, not a uniform distribution.
- SQL execution, the schema and its migrations: query results are inputs. `daily_averages`, `total_entries`, `log_mood`, `save_suggestions`, the effectiveness and context queries, the user lookups and the row writes of every route are not modelled.
- Database.HistoryStatement: the query text is the source's statement on one line; the source's line breaks and indentation inside the literal are not reproduced.
- Database.HistoryStatement: `limit` is modelled as an optional integer; other truthy Python values are not modelled.
- The streak days come from a query limited to the last 365 days; that window is part of the query input.
- Sessions, flash messages, templates, redirects, remember-me, werkzeug hashing and uuid generation: these are Flask and library plumbing. Password checks and database lookups are parameters, and the uuid's hex text is a parameter.
- Routes.DetectEmotionRoute: the database write, the suggestions and the quote that follow a detection are not part of its result. In the source, `log_mood` raises on a value SQLite cannot bind (a list or object under `context`, `notes`, `manual_mood` or `intensity`) and the route then answers 500; here such a body is still Detected. The suggestions and the quote are modelled separately as `SuggestionEngine.GetSuggestions` and `SuggestionEngine.GetPersonalizedQuote`. A non-object JSON body is not modelled.
- Routes.SaveMood: the uuid file name of the saved image, and the file write are left out. Which texts `base64.b64decode` accepts, and which rows the INSERT accepts (SQLite cannot bind a list or an object), are parameters. Both failures answer 500 (`SaveFailed`) and are not told apart from the other server errors. JSON numbers are reals, so the default intensity `5` appears as `5.0`.
- Common.Lower: lower-casing is ASCII only. This is exact for the three allowed extensions.
- PyInt.ParseInt: only the ASCII digits 0-9 are recognised. Python's `int` also accepts the other Unicode decimal digits (`"３０"` is 30); such text is refused here.
- Forms.CheckAge: an age written with non-ASCII decimal digits is judged invalid, where the application would parse it (see PyInt.ParseInt).
- Forms.ValidateProfile: the same ASCII-digit limit as Forms.CheckAge applies to its age check.
- The settings forms' other branches (notifications, privacy, connected accounts, subscription, download) only flash a message and are left out.
- Front-end JavaScript and analyze_image.py are not part of this model.

## Findings

| source | as written | input that shows it | evidently intended | confidence | as-written member | corrected member |
|---|---|---|---|---|---|---|
| moodsync/app.py:181-183 | after login, redirect to `next` whenever it is non-empty and starts with `/` | `next=//evil.example`: it starts with `/`, but browsers read it as a protocol-relative address on another host (an open redirect) | redirect only to a path on this site (no `//` or `/\` prefix), otherwise to the dashboard | not executed | Forms.NextTargetAsWritten (with Forms.OpenRedirect and Forms.LoginAsWrittenLeavesSite) | Forms.NextTarget (with Forms.NextTargetNarrowsWritten and Forms.LoginStaysOnSite) |
