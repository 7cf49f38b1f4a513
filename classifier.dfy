/** The field classifier: the five keyword tables, the lower-cased copy of the
    skill list, the any-keyword membership test and the first-match-wins
    chain that picks the candidate's field. */
module Classifier {
  import opened Text
  import opened Optional

  /** The five fields the analyser knows, in no particular order here. */
  datatype Track = DataScience | WebDevelopment | AndroidDevelopment | IOSDevelopment | UIUXDevelopment

  /** The order in which the tracks are tried. */
  const Priority: seq<Track> := [DataScience, WebDevelopment, AndroidDevelopment, IOSDevelopment, UIUXDevelopment]

  /** A track's place in `Priority`. */
  function Rank(t: Track): (k: nat)
    ensures k < |Priority| && Priority[k] == t
  {
    match t
    case DataScience => 0
    case WebDevelopment => 1
    case AndroidDevelopment => 2
    case IOSDevelopment => 3
    case UIUXDevelopment => 4
  }

  /** The field name shown to the user and stored as the predicted field. */
  function FieldName(t: Track): string {
    match t
    case DataScience => "Data Science"
    case WebDevelopment => "Web Development"
    case AndroidDevelopment => "Android Development"
    case IOSDevelopment => "IOS Development"
    case UIUXDevelopment => "UI-UX Development"
  }

  const DataScienceKeywords: seq<string> :=
    ["tensorflow", "keras", "pytorch", "machine learning", "deep learning", "flask", "streamlit"]

  const WebKeywords: seq<string> :=
    ["react", "django", "node js", "react js", "php", "laravel", "magento", "wordpress",
     "javascript", "angular js", "c#", "flask"]

  const AndroidKeywords: seq<string> :=
    ["android", "android development", "flutter", "kotlin", "xml", "kivy"]

  const IOSKeywords: seq<string> :=
    ["ios", "ios development", "swift", "cocoa", "cocoa touch", "xcode"]

  const UIUXKeywords: seq<string> :=
    ["ux", "adobe xd", "figma", "zeplin", "balsamiq", "ui", "prototyping", "wireframes", "storyframes",
     "adobe photoshop", "photoshop", "editing", "adobe illustrator", "illustrator", "adobe after effects",
     "after effects", "adobe premier pro", "premier pro", "adobe indesign", "indesign", "wireframe", "solid",
     "grasp", "user research", "user experience"]

  /** The keyword table a track is matched against. */
  function Keywords(t: Track): seq<string> {
    match t
    case DataScience => DataScienceKeywords
    case WebDevelopment => WebKeywords
    case AndroidDevelopment => AndroidKeywords
    case IOSDevelopment => IOSKeywords
    case UIUXDevelopment => UIUXKeywords
  }

  /** The fixed list of skills recommended to a candidate of the track. */
  function RecommendedSkills(t: Track): seq<string> {
    match t
    case DataScience =>
      ["Data Visualization", "Predictive Analysis", "Statistical Modeling", "Data Mining",
       "Clustering & Classification", "Data Analytics", "Quantitative Analysis", "Web Scraping",
       "ML Algorithms", "Keras", "Pytorch", "Probability", "Scikit-learn", "Tensorflow",
       "Flask", "Streamlit"]
    case WebDevelopment =>
      ["React", "Django", "Node JS", "React JS", "PHP", "Laravel", "Magento", "WordPress",
       "JavaScript", "Angular JS", "C#", "Flask", "SDK"]
    case AndroidDevelopment =>
      ["Android", "Android Development", "Flutter", "Kotlin", "XML", "Java", "Kivy", "GIT",
       "SDK", "SQLite"]
    case IOSDevelopment =>
      ["IOS", "IOS Development", "Swift", "Cocoa", "Cocoa Touch", "Xcode",
       "Objective-C", "SQLite", "Plist", "StoreKit", "UI-Kit", "AV Foundation",
       "Auto-Layout"]
    case UIUXDevelopment =>
      ["UI", "User Experience", "Adobe XD", "Figma", "Zeplin", "Balsamiq",
       "Prototyping", "Wireframes", "Storyframes", "Adobe Photoshop",
       "Editing", "Illustrator", "After Effects", "Premier Pro", "Indesign",
       "Wireframe", "Solid", "Grasp", "User Research"]
  }

  /** The lower-cased copy of the skill list: a new list, element for element. */
  function LowerAll(skills: seq<string>): (lowered: seq<string>)
    ensures |lowered| == |skills|
    ensures forall i :: 0 <= i < |skills| ==> lowered[i] == Lower(skills[i])
  {
    seq(|skills|, i requires 0 <= i < |skills| => Lower(skills[i]))
  }

  /** The `any(...)` test: some keyword is, as a whole, an element of the lowered list. */
  predicate Matches(keywords: seq<string>, lowered: seq<string>) {
    exists kw :: kw in keywords && kw in lowered
  }

  predicate TrackMatches(t: Track, lowered: seq<string>) {
    Matches(Keywords(t), lowered)
  }

  /** The nested chain of `if not recommend(...)`: the tracks are tried in
      priority order and the first one whose test succeeds is the answer;
      when none succeeds the candidate stays unclassified. */
  function Classify(skills: seq<string>): (r: Option<Track>)
    ensures r.Some? ==> TrackMatches(r.value, LowerAll(skills))
    ensures r.Some? ==> forall u :: Rank(u) < Rank(r.value) ==> !TrackMatches(u, LowerAll(skills))
    ensures r.None? <==> forall u :: !TrackMatches(u, LowerAll(skills))
  {
    var lowered := LowerAll(skills);
    assert forall u :: TrackMatches(u, lowered) == Matches(Keywords(u), lowered);
    if Matches(DataScienceKeywords, lowered) then Some(DataScience)
    else if Matches(WebKeywords, lowered) then Some(WebDevelopment)
    else if Matches(AndroidKeywords, lowered) then Some(AndroidDevelopment)
    else if Matches(IOSKeywords, lowered) then Some(IOSDevelopment)
    else if Matches(UIUXKeywords, lowered) then Some(UIUXDevelopment)
    else None
  }

  /** The reference reading of first-match-wins: walk an ordered list of
      tracks and stop at the first that matches. */
  function FirstMatch(order: seq<Track>, lowered: seq<string>): (r: Option<Track>)
    ensures r.Some? ==> r.value in order && TrackMatches(r.value, lowered)
    ensures r.Some? ==>
      exists k :: 0 <= k < |order| && order[k] == r.value &&
                  forall i :: 0 <= i < k ==> !TrackMatches(order[i], lowered)
    ensures r.None? <==> forall i :: 0 <= i < |order| ==> !TrackMatches(order[i], lowered)
  {
    if order == [] then None
    else if TrackMatches(order[0], lowered) then Some(order[0])
    else
      var rest := FirstMatch(order[1..], lowered);
      assert forall i :: 1 <= i < |order| ==> order[i] == order[1..][i - 1];
      assert rest.Some? ==>
        exists k :: 0 <= k < |order| && order[k] == rest.value &&
                    forall i :: 0 <= i < k ==> !TrackMatches(order[i], lowered)
      by {
        if rest.Some? {
          var k :| 0 <= k < |order[1..]| && order[1..][k] == rest.value &&
                   forall i :: 0 <= i < k ==> !TrackMatches(order[1..][i], lowered);
          assert order[k + 1] == rest.value;
        }
      }
      rest
  }

  /** The nested chain is the ordered first-match walk over `Priority`. */
  lemma ClassifyIsFirstMatch(skills: seq<string>)
    ensures Classify(skills) == FirstMatch(Priority, LowerAll(skills))
  {
    var lowered := LowerAll(skills);
    var p4 := [UIUXDevelopment];
    var p3 := [IOSDevelopment] + p4;
    var p2 := [AndroidDevelopment] + p3;
    var p1 := [WebDevelopment] + p2;
    var p0 := [DataScience] + p1;
    assert p4[1..] == [] && p3[1..] == p4 && p2[1..] == p3 && p1[1..] == p2 && p0[1..] == p1;
    assert p0 == Priority;
    assert FirstMatch(p4, lowered) == if TrackMatches(UIUXDevelopment, lowered) then Some(UIUXDevelopment) else None;
    assert FirstMatch(p3, lowered) == if TrackMatches(IOSDevelopment, lowered) then Some(IOSDevelopment) else FirstMatch(p4, lowered);
    assert FirstMatch(p2, lowered) == if TrackMatches(AndroidDevelopment, lowered) then Some(AndroidDevelopment) else FirstMatch(p3, lowered);
    assert FirstMatch(p1, lowered) == if TrackMatches(WebDevelopment, lowered) then Some(WebDevelopment) else FirstMatch(p2, lowered);
    assert FirstMatch(p0, lowered) == if TrackMatches(DataScience, lowered) then Some(DataScience) else FirstMatch(p1, lowered);
  }

  /** A track matches exactly when some skill, lower-cased as a whole, equals
      one of its keywords; a skill that merely contains a keyword does not count. */
  lemma TrackMatchesIff(t: Track, skills: seq<string>)
    ensures TrackMatches(t, LowerAll(skills)) <==>
      exists i :: 0 <= i < |skills| && Lower(skills[i]) in Keywords(t)
  {
    var lowered := LowerAll(skills);
    if TrackMatches(t, lowered) {
      var kw :| kw in Keywords(t) && kw in lowered;
      var i :| 0 <= i < |lowered| && lowered[i] == kw;
      assert Lower(skills[i]) in Keywords(t);
    }
    if i :| 0 <= i < |skills| && Lower(skills[i]) in Keywords(t) {
      assert lowered[i] in lowered;
    }
  }

  /** The case of a skill does not matter: only its lower-cased form is compared. */
  lemma ClassifyIgnoresCase(skills: seq<string>, other: seq<string>)
    requires LowerAll(skills) == LowerAll(other)
    ensures Classify(skills) == Classify(other)
  {
  }

  /** An empty skill list is never classified. */
  lemma EmptySkillsUnclassified()
    ensures Classify([]) == None
  {
    assert LowerAll([]) == [];
  }

  /** "flask" is a keyword of both Data Science and Web Development; the
      earlier track always wins. */
  lemma FlaskIsDataScience(skills: seq<string>)
    requires exists i :: 0 <= i < |skills| && Lower(skills[i]) == "flask"
    ensures "flask" in Keywords(DataScience) && "flask" in Keywords(WebDevelopment)
    ensures Classify(skills) == Some(DataScience)
  {
    var i :| 0 <= i < |skills| && Lower(skills[i]) == "flask";
    assert DataScienceKeywords[5] == "flask";
    assert WebKeywords[11] == "flask";
    assert LowerAll(skills)[i] == "flask";
  }

  /** A skill set naming both a web and an Android keyword matches both
      tracks and is classified as web development, the earlier of the two. */
  lemma ReactAndFlutterIsWeb()
    ensures TrackMatches(WebDevelopment, LowerAll(["React", "Flutter"]))
    ensures TrackMatches(AndroidDevelopment, LowerAll(["React", "Flutter"]))
    ensures Classify(["React", "Flutter"]) == Some(WebDevelopment)
  {
    var skills := ["React", "Flutter"];
    assert Lower("React") == "react";
    assert Lower("Flutter") == "flutter";
    var lowered := LowerAll(skills);
    assert lowered == ["react", "flutter"];
    assert Matches(WebKeywords, lowered) by {
      assert WebKeywords[0] == "react" && lowered[0] == "react";
      assert "react" in WebKeywords && "react" in lowered;
    }
    assert Matches(AndroidKeywords, lowered) by {
      assert AndroidKeywords[2] == "flutter" && lowered[1] == "flutter";
      assert "flutter" in AndroidKeywords && "flutter" in lowered;
    }
    assert !Matches(DataScienceKeywords, lowered) by {
      forall kw | kw in lowered ensures kw !in DataScienceKeywords { }
    }
  }

  /** "React Native" contains the web keyword "react" but equals no keyword,
      so it matches no track. */
  lemma ReactNativeIsUnclassified()
    ensures "react" in Keywords(WebDevelopment) && OccursAt(Lower("React Native"), "react", 0)
    ensures Classify(["React Native"]) == None
  {
    var skill := "react native";
    assert Lower("React Native") == skill;
    assert WebKeywords[0] == "react";
    assert skill[..5] == "react";
    var lowered := LowerAll(["React Native"]);
    assert lowered == [skill];
    forall t ensures !TrackMatches(t, lowered) {
      assert skill !in Keywords(t);
    }
  }
}
