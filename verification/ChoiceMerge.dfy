/** Merging a reviewed suggestion into a choice plan without replacing anything the author wrote. */
module ChoiceMerge {
  import opened Prelude

  const MAX_TOPICS: nat := 6
  const MAX_OPTIONS: nat := 16

  datatype Kind = Choice | Date
  datatype Topic = Topic(name: string, kind: Kind, options: seq<string>)
  datatype Plan = Plan(title: string, description: string, topics: seq<Topic>)

  /** Trimming, and the comparison form of a text. */
  datatype Text = Text(trim: string -> string, norm: string -> string)

  /** Nothing visible compares like a blank. */
  ghost predicate Sensible(x: Text) {
    forall s :: x.trim(s) != "" ==> x.norm(x.trim(s)) != x.norm("")
  }

  predicate Fits(p: Plan) {
    && |p.title| <= 80 && |p.description| <= 1000 && |p.topics| <= MAX_TOPICS
    && forall k :: 0 <= k < |p.topics| ==> FitsTopic(p.topics[k])
  }

  predicate FitsTopic(t: Topic) {
    |t.name| <= 120 && |t.options| <= MAX_OPTIONS && forall k :: 0 <= k < |t.options| ==> |t.options[k]| <= 100
  }

  predicate Named(x: Text, t: Topic, name: string, kind: Kind) {
    x.norm(t.name) == x.norm(name) && t.kind == kind
  }

  function FindTopic(x: Text, topics: seq<Topic>, name: string, kind: Kind): (r: Option<nat>)
    ensures r.Some? ==> r.value < |topics| && Named(x, topics[r.value], name, kind)
                        && forall k :: 0 <= k < r.value ==> !Named(x, topics[k], name, kind)
    ensures r.None? ==> forall k :: 0 <= k < |topics| ==> !Named(x, topics[k], name, kind)
  {
    IndexOf(topics, (t: Topic) => Named(x, t, name, kind))
  }

  predicate Unnamed(x: Text, t: Topic) { x.trim(t.name) == "" || t.name == "Options" }

  predicate Holds(x: Text, options: seq<string>, option: string) {
    exists k :: 0 <= k < |options| && x.norm(options[k]) == x.norm(option)
  }

  function Trimmed(x: Text, options: seq<string>): (r: seq<string>)
    ensures |r| == |options| && forall k :: 0 <= k < |r| ==> r[k] == x.trim(options[k])
  {
    seq(|options|, k requires 0 <= k < |options| => x.trim(options[k]))
  }

  /** Non-blank, not there yet, and the first of its kind among the suggestions. */
  predicate Novel(x: Text, saved: seq<string>, options: seq<string>, k: nat)
    requires k < |options|
  {
    options[k] != "" && !Holds(x, saved, options[k]) && !Holds(x, options[..k], options[k])
  }

  /** The novel ones among the first n suggestions, in order. */
  function Additions(x: Text, saved: seq<string>, options: seq<string>, n: nat): seq<string>
    requires n <= |options|
  {
    if n == 0 then []
    else Additions(x, saved, options, n - 1) + (if Novel(x, saved, options, n - 1) then [options[n - 1]] else [])
  }

  /** The plan with the place the suggestion goes to, and that place. */
  function TopicPlace(x: Text, p: Plan, topic: Topic): Option<(seq<Topic>, nat)> {
    match FindTopic(x, p.topics, topic.name, topic.kind)
    case Some(i) => Some((p.topics, i))
    case None =>
      if |p.topics| == 1 && Unnamed(x, p.topics[0]) && p.topics[0].options == [] then
        Some(([Topic(topic.name, topic.kind, [])], 0))
      else if |p.topics| >= MAX_TOPICS then None
      else Some((p.topics + [Topic(topic.name, topic.kind, [])], |p.topics|))
  }

  function AddTopic(x: Text, p: Plan, topic: Topic): Option<Plan> {
    if x.trim(topic.name) == "" || topic.options == [] then None
    else match TopicPlace(x, p, topic)
      case None => None
      case Some(place) =>
        if place.1 >= |place.0| then None
        else
          var target := place.0[place.1];
          var additions := Additions(x, target.options, Trimmed(x, topic.options), |topic.options|);
          if additions == [] || |target.options| + |additions| > MAX_OPTIONS then None
          else
            var next := p.(topics := place.0[place.1 := target.(options := target.options + additions)]);
            if Fits(next) then Some(next) else None
  }

  /** A single unnamed topic of the same kind takes a lone option even when it has options already. */
  function OptionPlace(x: Text, p: Plan, topic: Topic): Option<(seq<Topic>, nat)> {
    match FindTopic(x, p.topics, topic.name, topic.kind)
    case Some(i) => Some((p.topics, i))
    case None =>
      if |p.topics| == 1 && Unnamed(x, p.topics[0])
         && (p.topics[0].options == [] || p.topics[0].kind == topic.kind) then
        Some((if p.topics[0].options == [] then [Topic(topic.name, topic.kind, [])] else p.topics, 0))
      else if |p.topics| >= MAX_TOPICS then None
      else Some((p.topics + [Topic(topic.name, topic.kind, [])], |p.topics|))
  }

  function AddOption(x: Text, p: Plan, topic: Topic, option: string): Option<Plan> {
    var value := x.trim(option);
    if value == "" || |value| > 100 then None
    else match OptionPlace(x, p, topic)
      case None => None
      case Some(place) =>
        if place.1 >= |place.0| then None
        else
          var target := place.0[place.1];
          if |target.options| >= MAX_OPTIONS || Holds(x, target.options, value) then None
          else
            var next := p.(topics := place.0[place.1 := target.(options := target.options + [value])]);
            if Fits(next) then Some(next) else None
  }

  // ----- what a merge keeps and adds

  /** New texts only: none of them was there, and no two of them compare equal. */
  ghost predicate OnlyNovel(x: Text, saved: seq<string>, added: seq<string>) {
    && (forall k :: 0 <= k < |added| ==> added[k] != "" && !Holds(x, saved, added[k]))
    && forall i, j :: 0 <= i < j < |added| ==> x.norm(added[i]) != x.norm(added[j])
  }

  /** Everything the author had stays: title, description, and every topic that has options, with its options first. */
  ghost predicate Keeps(p: Plan, next: Plan) {
    && next.title == p.title && next.description == p.description && |p.topics| <= |next.topics| <= |p.topics| + 1
    && forall k :: 0 <= k < |p.topics| && p.topics[k].options != [] ==>
         && next.topics[k].name == p.topics[k].name && next.topics[k].kind == p.topics[k].kind
         && p.topics[k].options <= next.topics[k].options
  }

  lemma {:induction false} AdditionsAreNovel(x: Text, saved: seq<string>, options: seq<string>, n: nat)
    requires n <= |options|
    ensures OnlyNovel(x, saved, Additions(x, saved, options, n))
    ensures forall a :: a in Additions(x, saved, options, n) ==> a in options[..n]
  {
    if n > 0 {
      AdditionsAreNovel(x, saved, options, n - 1);
      var before := Additions(x, saved, options, n - 1);
      assert forall a :: a in options[..n - 1] ==> a in options[..n];
      if Novel(x, saved, options, n - 1) {
        assert options[n - 1] == options[..n][n - 1];
        forall i | 0 <= i < |before| ensures x.norm(before[i]) != x.norm(options[n - 1]) {
          assert before[i] in before && before[i] in options[..n - 1];
        }
      }
    }
  }

  /** The suggestions are added in their order: those added for the first ones come first. */
  lemma {:induction false} AdditionsInOrder(x: Text, saved: seq<string>, options: seq<string>, m: nat, n: nat)
    requires m <= n <= |options|
    ensures Additions(x, saved, options, m) <= Additions(x, saved, options, n)
    decreases n
  {
    if m < n { AdditionsInOrder(x, saved, options, m, n - 1); }
  }

  /** Every non-blank suggestion compares equal to something that was there or has been added. */
  lemma {:induction false} SuggestionsIncluded(x: Text, saved: seq<string>, options: seq<string>, n: nat, k: nat)
    requires k < n <= |options| && options[k] != ""
    requires forall j :: 0 <= j < |options| && options[j] != "" ==> x.norm(options[j]) != x.norm("")
    ensures Holds(x, saved + Additions(x, saved, options, n), options[k])
    decreases n
  {
    var all := Additions(x, saved, options, n);
    if k < n - 1 {
      SuggestionsIncluded(x, saved, options, n - 1, k);
      var part := saved + Additions(x, saved, options, n - 1);
      var at :| 0 <= at < |part| && x.norm(part[at]) == x.norm(options[k]);
      assert (saved + all)[at] == part[at];
    } else if Novel(x, saved, options, k) {
      assert (saved + all)[|saved + all| - 1] == options[k];
    } else if Holds(x, saved, options[k]) {
      var at :| 0 <= at < |saved| && x.norm(saved[at]) == x.norm(options[k]);
      assert (saved + all)[at] == saved[at];
    } else {
      var j :| 0 <= j < k && x.norm(options[..k][j]) == x.norm(options[k]);
      SuggestionsIncluded(x, saved, options, n - 1, j);
      var part := saved + Additions(x, saved, options, n - 1);
      var at :| 0 <= at < |part| && x.norm(part[at]) == x.norm(options[j]);
      assert (saved + all)[at] == part[at];
    }
  }

  lemma NothingNovel(x: Text, saved: seq<string>, options: seq<string>, n: nat)
    requires n <= |options|
    requires forall k :: 0 <= k < |options| && options[k] != "" ==> Holds(x, saved, options[k])
    ensures Additions(x, saved, options, n) == []
  {
    if n > 0 { NothingNovel(x, saved, options, n - 1); }
  }

  /** The place found for a suggestion keeps the topics that have options, and is found again afterwards. */
  lemma PlaceFits(x: Text, p: Plan, topic: Topic)
    requires TopicPlace(x, p, topic).Some?
    ensures var (topics, i) := TopicPlace(x, p, topic).value;
            && i < |topics| && |p.topics| <= |topics| <= |p.topics| + 1 && Named(x, topics[i], topic.name, topic.kind)
            && (forall k :: 0 <= k < i ==> !Named(x, topics[k], topic.name, topic.kind))
            && forall k :: 0 <= k < |p.topics| && p.topics[k].options != [] ==> topics[k] == p.topics[k]
  {
  }

  lemma FoundAgain(x: Text, topics: seq<Topic>, i: nat, options: seq<string>, name: string, kind: Kind)
    requires i < |topics| && Named(x, topics[i], name, kind)
             && forall k :: 0 <= k < i ==> !Named(x, topics[k], name, kind)
    ensures FindTopic(x, topics[i := topics[i].(options := options)], name, kind) == Some(i)
  {
    var next := topics[i := topics[i].(options := options)];
    assert Named(x, next[i], name, kind);
    assert forall k :: 0 <= k < i ==> next[k] == topics[k];
  }

  /** One topic has gained these options at its end, all of them suggested and new; the other topics are as they
      were. */
  ghost predicate TopicGained(x: Text, p: Plan, topic: Topic, next: Plan, i: nat, added: seq<string>)
    requires i < |next.topics|
  {
    && |added| <= |next.topics[i].options|
    && next.topics[i].options[|next.topics[i].options| - |added|..] == added
    && OnlyNovel(x, next.topics[i].options[..|next.topics[i].options| - |added|], added)
    && (forall a :: a in added ==> a in Trimmed(x, topic.options))
    && (forall k :: 0 <= k < |topic.options| && x.trim(topic.options[k]) != "" ==>
          Holds(x, next.topics[i].options, x.trim(topic.options[k])))
    && forall k :: 0 <= k < |p.topics| && k != i ==> k < |next.topics| && next.topics[k] == p.topics[k]
  }

  /** The suggestions that were not blank are all there, so there is nothing left to add. */
  lemma AllIncluded(x: Text, saved: seq<string>, options: seq<string>)
    requires Sensible(x)
    ensures var all := saved + Additions(x, saved, Trimmed(x, options), |options|);
            && (forall k :: 0 <= k < |options| && x.trim(options[k]) != "" ==> Holds(x, all, x.trim(options[k])))
            && Additions(x, all, Trimmed(x, options), |options|) == []
  {
    var trimmed := Trimmed(x, options);
    var all := saved + Additions(x, saved, trimmed, |options|);
    forall k | 0 <= k < |options| && trimmed[k] != "" ensures Holds(x, all, trimmed[k]) {
      assert x.trim(options[k]) != "";
      SuggestionsIncluded(x, saved, trimmed, |options|, k);
    }
    forall k | 0 <= k < |options| && x.trim(options[k]) != "" ensures Holds(x, all, x.trim(options[k])) {
      assert trimmed[k] != "";
    }
    NothingNovel(x, all, trimmed, |options|);
  }

  lemma TopicGains(x: Text, p: Plan, topic: Topic)
    requires Sensible(x) && AddTopic(x, p, topic).Some?
    ensures var (topics, i) := TopicPlace(x, p, topic).value;
            var added := Additions(x, topics[i].options, Trimmed(x, topic.options), |topic.options|);
            i < |AddTopic(x, p, topic).value.topics| && TopicGained(x, p, topic, AddTopic(x, p, topic).value, i, added)
  {
    PlaceFits(x, p, topic);
    var (topics, i) := TopicPlace(x, p, topic).value;
    var saved, trimmed := topics[i].options, Trimmed(x, topic.options);
    AdditionsAreNovel(x, saved, trimmed, |trimmed|);
    AllIncluded(x, saved, topic.options);
    assert trimmed[..|trimmed|] == trimmed;
    var options := AddTopic(x, p, topic).value.topics[i].options;
    var added := Additions(x, saved, trimmed, |trimmed|);
    assert options[|options| - |added|..] == added && options[..|options| - |added|] == saved;
  }

  /** Merging the same topic again finds the same place and nothing to add. */
  lemma TopicMergedOnce(x: Text, p: Plan, topic: Topic)
    requires Sensible(x) && AddTopic(x, p, topic).Some?
    ensures AddTopic(x, AddTopic(x, p, topic).value, topic) == None
  {
    PlaceFits(x, p, topic);
    var (topics, i) := TopicPlace(x, p, topic).value;
    var added := Additions(x, topics[i].options, Trimmed(x, topic.options), |topic.options|);
    AllIncluded(x, topics[i].options, topic.options);
    FoundAgain(x, topics, i, topics[i].options + added, topic.name, topic.kind);
  }

  /** A merged topic keeps all that was there, adds only what is new, includes every suggestion that is not blank,
      stays within the bounds, and merging it a second time does nothing. */
  lemma TopicMerged(x: Text, p: Plan, topic: Topic)
    requires Sensible(x) && AddTopic(x, p, topic).Some?
    ensures var next := AddTopic(x, p, topic).value;
            && Keeps(p, next) && Fits(next)
            && (exists i, added :: 0 <= i < |next.topics| && Named(x, next.topics[i], topic.name, topic.kind)
                  && (forall k :: 0 <= k < i ==> !Named(x, next.topics[k], topic.name, topic.kind))
                  && added != [] && TopicGained(x, p, topic, next, i, added))
            && AddTopic(x, next, topic) == None
  {
    PlaceFits(x, p, topic);
    TopicGains(x, p, topic);
    TopicMergedOnce(x, p, topic);
  }

  /** The plan's only topic is still the empty one it began with: unnamed, or under the name it is given at first. */
  ghost predicate OnlyPlaceholder(x: Text, p: Plan) {
    |p.topics| == 1 && p.topics[0].options == [] && StillUnnamed(x, p)
  }

  ghost predicate StillUnnamed(x: Text, p: Plan) {
    |p.topics| == 1 && (x.trim(p.topics[0].name) == "" || p.topics[0].name == "Options")
  }

  ghost predicate HasTopic(x: Text, p: Plan, topic: Topic) {
    exists k :: 0 <= k < |p.topics| && Named(x, p.topics[k], topic.name, topic.kind)
  }

  /** The topic is in the plan under its own name and kind, at this place. */
  ghost predicate StandsAt(next: Plan, k: nat, topic: Topic) {
    k < |next.topics| && next.topics[k].name == topic.name && next.topics[k].kind == topic.kind
  }

  /** Where a suggested topic goes: to the topic of that name and kind, else in place of the empty one the plan began
      with, else to the end. */
  lemma TopicLands(x: Text, p: Plan, topic: Topic)
    requires AddTopic(x, p, topic).Some?
    ensures var next := AddTopic(x, p, topic).value;
            if HasTopic(x, p, topic) then
              |next.topics| == |p.topics| && forall k :: 0 <= k < |p.topics| ==> StandsAt(next, k, p.topics[k])
            else if OnlyPlaceholder(x, p) then |next.topics| == 1 && StandsAt(next, 0, topic)
            else |p.topics| < MAX_TOPICS && StandsAt(next, |p.topics|, topic)
                 && next.topics[..|p.topics|] == p.topics && |next.topics| == |p.topics| + 1
  {
  }

  /** Where a lone option goes: as a topic does, except that a single unnamed topic of its kind takes it whatever it
      already offers. */
  lemma OptionLands(x: Text, p: Plan, topic: Topic, option: string)
    requires AddOption(x, p, topic, option).Some?
    ensures var next := AddOption(x, p, topic, option).value;
            if HasTopic(x, p, topic) || (StillUnnamed(x, p) && !OnlyPlaceholder(x, p) && p.topics[0].kind == topic.kind)
            then |next.topics| == |p.topics| && forall k :: 0 <= k < |p.topics| ==> StandsAt(next, k, p.topics[k])
            else if OnlyPlaceholder(x, p) then
              next.topics == [Topic(topic.name, topic.kind, [x.trim(option)])]
            else next.topics == p.topics + [Topic(topic.name, topic.kind, [x.trim(option)])]
  {
    var next := AddOption(x, p, topic, option).value;
    var (topics, i) := OptionPlace(x, p, topic).value;
    assert next.topics[i].options == topics[i].options + [x.trim(option)];
    if !HasTopic(x, p, topic) {
      if OnlyPlaceholder(x, p) {
        assert next.topics[0] == Topic(topic.name, topic.kind, [x.trim(option)]);
      } else if !(StillUnnamed(x, p) && p.topics[0].kind == topic.kind) {
        assert next.topics[|p.topics|] == Topic(topic.name, topic.kind, [x.trim(option)]);
        assert next.topics[..|p.topics|] == p.topics;
      }
    }
  }

  /** A topic finds a place unless it would be the seventh. */
  predicate HasRoom(x: Text, p: Plan, topic: Topic) {
    |p.topics| < MAX_TOPICS || exists k :: 0 <= k < |p.topics| && Named(x, p.topics[k], topic.name, topic.kind)
  }

  /** Some suggestion is not blank and not there yet. */
  predicate Brings(x: Text, saved: seq<string>, options: seq<string>) {
    exists k :: 0 <= k < |options| && x.trim(options[k]) != "" && !Holds(x, saved, x.trim(options[k]))
  }

  lemma BringsExactly(x: Text, saved: seq<string>, options: seq<string>)
    requires Sensible(x)
    ensures Brings(x, saved, options) <==> Additions(x, saved, Trimmed(x, options), |options|) != []
  {
    var trimmed := Trimmed(x, options);
    if Brings(x, saved, options) {
      var k :| 0 <= k < |options| && x.trim(options[k]) != "" && !Holds(x, saved, x.trim(options[k]));
      forall j | 0 <= j < |trimmed| && trimmed[j] != "" ensures x.norm(trimmed[j]) != x.norm("") {
        assert x.trim(options[j]) != "";
      }
      SuggestionsIncluded(x, saved, trimmed, |options|, k);
      assert saved + [] == saved;
    } else {
      forall k | 0 <= k < |trimmed| && trimmed[k] != "" ensures Holds(x, saved, trimmed[k]) {
        assert x.trim(options[k]) != "";
      }
      NothingNovel(x, saved, trimmed, |options|);
    }
  }

  /** Exactly: a topic is merged if and only if it has a name and options, there is room for it, it brings something
      new, and the result stays within the bounds. */
  lemma TopicGoes(x: Text, p: Plan, topic: Topic)
    requires Sensible(x)
    ensures AddTopic(x, p, topic).Some? <==>
              && x.trim(topic.name) != "" && topic.options != [] && HasRoom(x, p, topic)
              && TopicPlace(x, p, topic).Some?
              && var (topics, i) := TopicPlace(x, p, topic).value;
                 && i < |topics| && Brings(x, topics[i].options, topic.options)
                 && var added := Additions(x, topics[i].options, Trimmed(x, topic.options), |topic.options|);
                    && |topics[i].options| + |added| <= MAX_OPTIONS
                    && Fits(p.(topics := topics[i := topics[i].(options := topics[i].options + added)]))
    ensures TopicPlace(x, p, topic).Some? <==> HasRoom(x, p, topic)
  {
    if TopicPlace(x, p, topic).Some? {
      var (topics, i) := TopicPlace(x, p, topic).value;
      PlaceFits(x, p, topic);
      BringsExactly(x, topics[i].options, topic.options);
    }
  }

  /** Exactly: an option is merged if and only if it is not blank and not too long, there is room for it and its
      topic, it is not there yet, and the result stays within the bounds. */
  lemma OptionGoes(x: Text, p: Plan, topic: Topic, option: string)
    ensures AddOption(x, p, topic, option).Some? <==>
              && 1 <= |x.trim(option)| <= 100 && OptionPlace(x, p, topic).Some?
              && var (topics, i) := OptionPlace(x, p, topic).value;
                 && i < |topics| && |topics[i].options| < MAX_OPTIONS
                 && (forall saved :: saved in topics[i].options ==> x.norm(saved) != x.norm(x.trim(option)))
                 && Fits(p.(topics := topics[i := topics[i].(options := topics[i].options + [x.trim(option)])]))
    ensures OptionPlace(x, p, topic).Some? <==> HasRoom(x, p, topic)
  {
    if OptionPlace(x, p, topic).Some? {
      var (topics, i) := OptionPlace(x, p, topic).value;
      OptionPlaceFits(x, p, topic);
      var value := x.trim(option);
      if saved :| saved in topics[i].options && x.norm(saved) == x.norm(value) {
        var k :| 0 <= k < |topics[i].options| && topics[i].options[k] == saved;
      }
    }
  }

  lemma OptionPlaceFits(x: Text, p: Plan, topic: Topic)
    requires OptionPlace(x, p, topic).Some?
    ensures var (topics, i) := OptionPlace(x, p, topic).value;
            && i < |topics| && |p.topics| <= |topics| <= |p.topics| + 1 && topics[i].kind == topic.kind
            && (forall k :: 0 <= k < |p.topics| && k != i ==> topics[k] == p.topics[k])
            && (forall k :: 0 <= k < |p.topics| && p.topics[k].options != [] ==> topics[k] == p.topics[k])
  {
  }

  /** The same place is found again once the option is there. */
  lemma OptionPlaceAgain(x: Text, p: Plan, topic: Topic, options: seq<string>)
    requires OptionPlace(x, p, topic).Some? && options != []
    ensures var (topics, i) := OptionPlace(x, p, topic).value;
            i < |topics| && OptionPlace(x, p.(topics := topics[i := topics[i].(options := options)]), topic)
                            == Some((topics[i := topics[i].(options := options)], i))
  {
    var (topics, i) := OptionPlace(x, p, topic).value;
    var next := topics[i := topics[i].(options := options)];
    if Named(x, topics[i], topic.name, topic.kind) {
      assert forall k :: 0 <= k < i ==> !Named(x, topics[k], topic.name, topic.kind);
      FoundAgain(x, topics, i, options, topic.name, topic.kind);
    } else {
      assert |next| == 1 && !Named(x, next[0], topic.name, topic.kind);
    }
  }

  /** A merged option is added at the end of one topic of its kind, nothing else changes, and merging it again does
      nothing. */
  lemma OptionMerged(x: Text, p: Plan, topic: Topic, option: string)
    requires AddOption(x, p, topic, option).Some?
    ensures var next := AddOption(x, p, topic, option).value;
            && Keeps(p, next) && Fits(next)
            && (exists i :: 0 <= i < |next.topics| && OptionGained(x, p, topic, next, i, x.trim(option))
                            && OptionHome(x, p, topic, next, i))
            && AddOption(x, next, topic, option) == None
  {
    var next := AddOption(x, p, topic, option).value;
    OptionPlaceFits(x, p, topic);
    var (topics, i) := OptionPlace(x, p, topic).value;
    var options := topics[i].options + [x.trim(option)];
    OptionPlaceAgain(x, p, topic, options);
    assert options[|options| - 1] == x.trim(option);
    assert Holds(x, options, x.trim(option));
    assert OptionGained(x, p, topic, next, i, x.trim(option));
    if Named(x, topics[i], topic.name, topic.kind) {
      assert forall k :: 0 <= k < i ==> !Named(x, topics[k], topic.name, topic.kind);
    }
    assert OptionHome(x, p, topic, next, i);
  }

  /** It is the first topic of that name and kind, or the one topic of the kind that has no name yet. */
  predicate OptionHome(x: Text, p: Plan, topic: Topic, next: Plan, i: nat)
    requires i < |next.topics|
  {
    (Named(x, next.topics[i], topic.name, topic.kind)
     && forall k :: 0 <= k < i ==> !Named(x, next.topics[k], topic.name, topic.kind))
    || (|p.topics| == 1 == |next.topics| && Unnamed(x, p.topics[0]) && next.topics[0].name == p.topics[0].name
        && p.topics[0].kind == topic.kind)
  }

  ghost predicate OptionGained(x: Text, p: Plan, topic: Topic, next: Plan, i: nat, value: string)
    requires i < |next.topics|
  {
    && next.topics[i].kind == topic.kind && |next.topics[i].options| > 0
    && next.topics[i].options[|next.topics[i].options| - 1] == value && value != ""
    && !Holds(x, next.topics[i].options[..|next.topics[i].options| - 1], value)
    && forall k :: 0 <= k < |p.topics| && k != i ==> k < |next.topics| && next.topics[k] == p.topics[k]
  }
}
