# Resume Analyser — classification and recommendation core

This project models the decision logic of the resume analyser's user page
(`resume/App.py`, the Streamlit script). It takes the extracted resume as given
and covers four pieces:

- **Candidate level.** The page count is mapped to "Fresher", "Intermediate" or
  "Experienced". The level stays the empty string below one page.
- **Field classification.** The skills are lower-cased into a new list. The five
  keyword tables are tried in a fixed order: Data Science, Web, Android, iOS,
  UI-UX. A table matches when one of its keywords equals a whole element of the
  lowered list, and the first match wins. The winning track gives the field name
  and a fixed list of recommended skills. With no match, the field and both
  recommendation lists keep their empty initial values.
- **Resume score.** Five case-sensitive substring checks on the raw text, each
  worth 20 points. The third check accepts "Hobbies" or "Interests".
- **Course recommender.** The winning track's course list is shuffled in place.
  Then the names of its first `n` entries are collected, or all of them when the
  list is shorter.

`run()` is modelled only as the composition of these pieces
(`Analyser.Analyse`). Its result is the record handed to the database.

Modules, one per piece, plus a string helper:

| file | module | contents |
|---|---|---|
| option.dfy | `Optional` | the optional value (no matching track, no reported page count) |
| text.dfy | `Text` | `str.lower()` on ASCII and the `p in s` substring test, with a reference definition |
| level.dfy | `Level` | the page count to level mapping |
| classifier.dfy | `Classifier` | keyword tables, recommended skills, lower-casing, first-match-wins chain |
| scorer.dfy | `Scorer` | the five checks, the score as a function and as the step-by-step `+= 20` block |
| courses.dfy | `Courses` | the in-place shuffle on an `array`, the `enumerate`/`break` loop, permutation lemmas |
| analyser.dfy | `Analyser` | extracted resume, stored record, the five course lists, the composed run |

Randomness is an input. `random.shuffle` is modelled as CPython's loop, which
runs from the last position down to position 1 and swaps position `k` with a
drawn position in `0..k`. The draws are a parameter `draws`, with `draws[k] <= k`.
So the shuffled order is a function of the draws, and every result holds for
every draw sequence.

Three behaviours of the code are easy to misread:

- A page count of 0 or less is not clamped to 1. The level stays `""`, as the
  `if/elif` chain leaves it. A missing page count defaults to 1 (`get('no_of_pages', 1)`).
- The course list is not copied. It is the module-level list itself, shuffled in
  place, so its new order persists to the next run. The model keeps it as an
  `array` inside `Analyser.CourseCatalog`.
- An unmatched classification is the empty field name `""`.

## Model

| member | source | states |
|---|---|---|
| Text.Lower | resume/App.py:280 | `skill.lower()`: same length, each capital letter replaced by its small letter, other characters kept; the result has no capitals |
| Text.LowerIdempotent | resume/App.py:280 | lower-casing an already lowered string changes nothing |
| Text.ContainsIff | resume/App.py:337 | the modelled `p in s` holds exactly when `p` occurs as a contiguous block at some position of `s` (both directions) |
| Text.ContainsFirstChar | resume/App.py:337 | a marker can only be found in a text that holds the marker's first character |
| Level.CandidateLevel | resume/App.py:240-250 | 1 page gives "Fresher", 2 "Intermediate", 3 or more "Experienced", 0 or less the empty level; each as an if-and-only-if |
| Level.LevelMonotone | resume/App.py:240-250 | more pages never give a lower level |
| Scorer.Total | resume/App.py:335-365 | a list of checks earns a multiple of 20, at most 20 per check; the maximum exactly when every check passes, 0 exactly when none does |
| Scorer.ResumeScore | resume/App.py:335-365 | the score is a multiple of 20 between 0 and 100; 100 exactly when all five markers are present (Hobbies or Interests for the third), 0 exactly when none of the six literals occurs |
| Scorer.ScoreIsSumOfChecks | resume/App.py:335-365 | the score is the sum of the five checks' points, each 20 or 0 |
| Scorer.ScoreResume | resume/App.py:335-365 | the step-by-step accumulation, starting at 0 and adding 20 per passing check, yields `ResumeScore` |
| Scorer.TotalPermutation | resume/App.py:335-365 | the total does not depend on the order the checks are made in |
| Scorer.LowerCaseTextScoresZero | resume/App.py:337-365 | the checks are case-sensitive: a text without capital letters scores 0 |
| Scorer.LowerCaseObjectiveEarnsNothing | resume/App.py:337-338 | the text "objective" scores 0 |
| Scorer.CapitalObjectiveEarnsTwenty | resume/App.py:337-338 | the text "Objective" scores exactly 20 |
| Scorer.HobbiesAndInterestsShareOneCheck | resume/App.py:349-350 | a text with both "Hobbies" and "Interests" (and no other marker) scores 20, not 40 |
| Classifier.LowerAll | resume/App.py:280 | the lowered skill list is a new list of the same length whose element `i` is skill `i` lower-cased |
| Classifier.Classify | resume/App.py:276-325 | the chosen track matches the lowered skills; no track before it in the order Data Science, Web, Android, iOS, UI-UX matches; there is no track exactly when no track matches |
| Classifier.FirstMatch | resume/App.py:300-325 | reference first-match walk over an ordered track list: a result is in the list and matches, and every track listed before it fails to match (it is the first match); no result exactly when no listed track matches |
| Classifier.ClassifyIsFirstMatch | resume/App.py:300-325 | the nested `if not recommend(...)` chain equals the first-match walk over the priority list |
| Classifier.TrackMatchesIff | resume/App.py:280-285 | a track matches exactly when some skill, lower-cased as a whole, is one of its keywords (list membership, not a substring test) |
| Classifier.ClassifyIgnoresCase | resume/App.py:280-285 | two skill lists with the same lowered form are classified alike |
| Classifier.EmptySkillsUnclassified | resume/App.py:276-285 | an empty skill list is not classified |
| Classifier.FlaskIsDataScience | resume/App.py:260-266 | "flask" is in both the Data Science and the Web table, and any skill list holding it is classified as Data Science |
| Classifier.ReactAndFlutterIsWeb | resume/App.py:300-313 | ["React", "Flutter"] matches both the Web and the Android table, and is classified as Web Development |
| Classifier.ReactNativeIsUnclassified | resume/App.py:260-285 | "react" is a Web keyword and "React Native", lowered, holds it at position 0; yet the skill equals no keyword, so it is not classified |
| Courses.Shuffled | resume/App.py:72 | the shuffle, driven by the draws, yields a permutation of the list: the same length and the same multiset |
| Courses.Shuffle | resume/App.py:72 | the in-place loop of swaps leaves the array equal to `Shuffled` of its old contents, and with the same multiset |
| Courses.TakeNames | resume/App.py:73-77 | the `enumerate`/`break` loop returns exactly `min(n, len)` names, the names of the first entries in order |
| Courses.CourseRecommender | resume/App.py:68-78 | the catalog becomes its shuffled permutation and the result is the names of its first `min(n, len)` entries |
| Courses.ShuffledNames | resume/App.py:72-77 | shuffling the entries then taking their names equals shuffling the names |
| Courses.PermutationKeepsNoDuplicates | resume/App.py:72 | a permutation of a list without duplicates has none |
| Courses.RecommendationIsFromCatalog | resume/App.py:72-78 | for any draws: exactly `min(n, len)` names, each the name of an entry of the original catalog, and no name twice when the catalog's names are distinct |
| Analyser.Recommend | resume/App.py:283-298 | for a track: its field name, its fixed skill list, and the first `n` names of its shuffled catalog, with no other catalog changed; with no track: empty values and no catalog changed |
| Analyser.Analyse | resume/App.py:240-389 | the stored record holds the name, email and page count, the level of the page count, the score of the raw text, the skill list as extracted (not lowered), and the recommendation of the classified track |

## Left out

- Streamlit rendering is not modelled: the page layout, the dark-mode CSS, the `st_tags` widgets, the progress bar with its `time.sleep`, balloons and messages. It has no decision content.
- The slider is not modelled. `n` is a parameter and must be at least 0. With a negative count the source loop never breaks and returns the whole list. The slider allows only 1 to 10.
- File handling and extraction are inputs: the upload, saving the file, `show_pdf`, `pdf_reader` and `ResumeParser`. The case of an empty extraction, which shows an error and skips the analysis, is left to the caller.
- A page count that is present but not an integer (such as `None`) is not modelled. In the source it makes `pages >= 3` raise an error.
- The database is left out: the connection, the `CREATE` statements and `insert_data`. `Analyse` returns the record that would be inserted. The timestamp comes from the clock and is not part of the record.
- The bonus videos are left out: `random.choice`, `fetch_yt_video_title` and the network lookup.
- The admin section is left out: the hard-coded login, `pd.read_sql`, `decode_text_column`, `decode_json_column`, the pie charts and `get_table_download_link`. They are wrappers over pandas, json and plotly.
- The NLTK and spaCy downloads at start-up are left out.
- The course catalogs come from a `Courses` module that is not part of this model. They are parameters (`Analyser.CourseCatalog`). The model assumes the five lists are five different objects (`CourseCatalog.Valid`). If two tracks shared one list, the shuffle at `resume/App.py:72` would reorder it for both, and the promise of `Analyser.Recommend` that no other catalog changes would not hold.
- Courses.Shuffle: the uniformity of `random.shuffle` is not modelled, because it is a property of the random source. That every permutation can be produced by some draws is not proved either.
- Text.Lower: only ASCII letters are lower-cased. Python's `str.lower` also maps non-ASCII characters, some of them onto ASCII; for example the Kelvin sign becomes `k`. Such a skill can match a keyword in the source but not in the model.
