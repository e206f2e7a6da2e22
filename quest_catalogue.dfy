/**
 * The rows of the `quests` literal in `src/data/quests.js`, and the checks
 * that make the table well formed: every id occurs once and every tier is
 * 1, 2 or 3.
 *
 * The literal is written here in the source's own blank-line-separated
 * groups (one category each), in source order; `Entries` is their
 * concatenation. Proofs about the table go group by group, because one
 * 47-element literal is more than the verifier can index into at once.
 */
module QuestCatalogue {

  /** One row of the literal, without its points (see `Quests.ToQuest`). */
  datatype Entry = Entry(id: string, tier: int, category: string, title: string, description: string, emoji: string)

  predicate DistinctIds(es: seq<Entry>) {
    forall i, j :: 0 <= i < j < |es| ==> es[i].id != es[j].id
  }

  /** No id of `a` is an id of `b`. */
  predicate Disjoint(a: seq<Entry>, b: seq<Entry>) {
    forall i, j :: 0 <= i < |a| && 0 <= j < |b| ==> a[i].id != b[j].id
  }

  predicate TiersWithin(es: seq<Entry>, lo: int, hi: int) {
    forall i :: 0 <= i < |es| ==> lo <= es[i].tier <= hi
  }

  function Flatten(gs: seq<seq<Entry>>): (es: seq<Entry>)
    ensures |gs| > 0 ==> es == gs[0] + Flatten(gs[1..])
  {
    if gs == [] then [] else gs[0] + Flatten(gs[1..])
  }

  lemma DisjointAppend(a: seq<Entry>, b: seq<Entry>, c: seq<Entry>)
    requires Disjoint(a, b) && Disjoint(a, c)
    ensures Disjoint(a, b + c)
  {
    forall i, j | 0 <= i < |a| && 0 <= j < |b + c| ensures a[i].id != (b + c)[j].id {
      if j >= |b| {
        assert (b + c)[j] == c[j - |b|];
      }
    }
  }

  lemma {:induction false} FlattenDisjoint(g: seq<Entry>, gs: seq<seq<Entry>>)
    requires forall h :: h in gs ==> Disjoint(g, h)
    ensures Disjoint(g, Flatten(gs))
  {
    if gs != [] {
      FlattenDisjoint(g, gs[1..]);
      DisjointAppend(g, gs[0], Flatten(gs[1..]));
    }
  }

  /** Putting a group with fresh ids and tiers in range in front keeps the whole table well formed. */
  lemma ConsGroup(g: seq<Entry>, gs: seq<seq<Entry>>)
    requires DistinctIds(g) && TiersWithin(g, 1, 3)
    requires DistinctIds(Flatten(gs)) && TiersWithin(Flatten(gs), 1, 3)
    requires forall h :: h in gs ==> Disjoint(g, h)
    ensures DistinctIds(Flatten([g] + gs)) && TiersWithin(Flatten([g] + gs), 1, 3)
  {
    assert ([g] + gs)[1..] == gs;
    FlattenDisjoint(g, gs);
  }

  const SocialKindness: seq<Entry> := [
    Entry("smile_stranger", 1, "Social Kindness", "Smile at a stranger",
          "A simple moment of human recognition.", "😊"),
    Entry("say_thank_you_mean_it", 1, "Social Kindness", "Say thank you and mean it",
          "Offer a sincere expression of gratitude.", "🙏"),
    Entry("hold_door_open", 1, "Social Kindness", "Hold a door open",
          "Pause for a moment to make someone's path easier.", "🚪"),
    Entry("let_someone_merge", 1, "Social Kindness", "Let someone merge in traffic",
          "Create a small pocket of patience on the road.", "🚗"),
    Entry("give_genuine_compliment", 1, "Social Kindness", "Give a genuine compliment",
          "Notice something real and kind about someone.", "🌟"),
    Entry("remember_name", 1, "Social Kindness", "Remember someone's name",
          "Show that you care enough to remember.", "🧠"),
    Entry("ask_how_doing_listen", 1, "Social Kindness", "Ask someone how they're doing (and listen)",
          "Offer your attention without rushing the answer.", "👂")
  ]

  const PersonalConduct: seq<Entry> := [
    Entry("pick_up_litter", 1, "Personal Conduct", "Pick up litter you didn't create",
          "Leave a space better than you found it.", "🗑️"),
    Entry("return_shopping_cart", 1, "Personal Conduct", "Return a shopping cart",
          "A small act of responsibility in a shared space.", "🛒"),
    Entry("be_on_time_today", 1, "Personal Conduct", "Be on time today",
          "Respect your own time and others' time.", "⏰"),
    Entry("phone_away_conversation", 1, "Personal Conduct", "Put your phone away during a conversation",
          "Give someone your full attention.", "📵"),
    Entry("apologize_when_wrong", 1, "Personal Conduct", "Apologize when you're wrong",
          "Own a mistake with honesty and care.", "💬")
  ]

  const DigitalKindness: seq<Entry> := [
    Entry("leave_kind_comment_online", 1, "Digital Kindness", "Leave a kind comment online",
          "Add a little warmth to someone's notifications.", "💻"),
    Entry("avoid_argument_escalation", 1, "Digital Kindness", "Don't engage in an argument you could escalate",
          "Choose peace over being \"right\" on the internet.", "🕊️"),
    Entry("share_helpful_info_gently", 1, "Digital Kindness", "Share helpful information without dunking",
          "Offer clarity without shaming anyone.", "📚"),
    Entry("credit_original_creator", 1, "Digital Kindness", "Credit an original creator",
          "Acknowledge whose work you're benefiting from.", "✍️")
  ]

  const Relationships: seq<Entry> := [
    Entry("check_in_friend", 2, "Relationships", "Check in on a friend unprompted",
          "Reach out just to say you care.", "📱"),
    Entry("write_thank_you_message", 2, "Relationships", "Write a thank-you message",
          "Tell someone how they've impacted you.", "💌"),
    Entry("forgive_internally", 2, "Relationships", "Forgive someone (internally)",
          "Let go a little, even if they never know.", "🕊️"),
    Entry("offer_help_unasked", 2, "Relationships", "Offer help without being asked",
          "Notice a need and gently step in.", "🤝"),
    Entry("reconnect_with_someone", 2, "Relationships", "Reconnect with someone you lost touch with",
          "Send a small, kind message to reopen a door.", "🔄")
  ]

  const Community: seq<Entry> := [
    Entry("help_neighbor", 2, "Community", "Help a neighbor with something practical",
          "Lighten a nearby load in a tangible way.", "🏡"),
    Entry("donate_unused_items", 2, "Community", "Donate unused items",
          "Pass along what you no longer need to someone who does.", "🎁"),
    Entry("support_local_business", 2, "Community", "Support a local business intentionally",
          "Choose to keep your support close to home.", "🏪"),
    Entry("attend_community_event", 2, "Community", "Attend a community meeting or event",
          "Show up where your community gathers.", "🗣️"),
    Entry("help_someone_learn_skill", 2, "Community", "Help someone learn a skill",
          "Share what you know with patience.", "🧑‍🏫")
  ]

  const Environment: seq<Entry> := [
    Entry("reduce_single_use_plastic_week", 2, "Environment", "Reduce single-use plastic for a week",
          "Experiment with a gentler footprint.", "♻️"),
    Entry("plant_something", 2, "Environment", "Plant something",
          "Add a small piece of green to the world.", "🌱"),
    Entry("learn_local_environment_issues", 2, "Environment", "Learn about local environmental issues",
          "Understand what your area is facing.", "🌍"),
    Entry("participate_cleanup", 2, "Environment", "Participate in a cleanup",
          "Join others in caring for a shared space.", "🧹")
  ]

  const SelfDevelopment: seq<Entry> := [
    Entry("learn_new_issue", 2, "Self-Development", "Learn about an issue you don't fully understand",
          "Let curiosity guide you into nuance.", "🔍"),
    Entry("read_disagree_perspective", 2, "Self-Development", "Read a perspective you disagree with",
          "Listen without needing to win.", "📖"),
    Entry("practice_patience_stress", 2, "Self-Development", "Practice patience in a stressful moment",
          "Notice the tension and soften your response.", "🧘")
  ]

  const Volunteering: seq<Entry> := [
    Entry("volunteer_local_org", 3, "Volunteering", "Volunteer with a local organization",
          "Offer your time where it's needed nearby.", "👐"),
    Entry("volunteer_disaster_relief", 3, "Volunteering", "Volunteer for disaster relief",
          "Support people facing urgent hardship.", "🚑"),
    Entry("recurring_volunteer_work", 3, "Volunteering", "Commit to recurring volunteer work",
          "Show up consistently for a cause you care about.", "📆")
  ]

  const LeadershipAndInitiative: seq<Entry> := [
    Entry("organize_community_event", 3, "Leadership & Initiative", "Organize a community event",
          "Gather people around something that matters.", "📣"),
    Entry("start_local_fundraiser", 3, "Leadership & Initiative", "Start a local fundraiser",
          "Help direct resources toward a need.", "💰"),
    Entry("coordinate_donation_drive", 3, "Leadership & Initiative", "Coordinate a donation drive",
          "Connect donors with organizations that can use their help.", "📦"),
    Entry("mentor_long_term", 3, "Leadership & Initiative", "Mentor someone long-term",
          "Invest in someone's growth over time.", "🌟")
  ]

  const CivicEngagement: seq<Entry> := [
    Entry("register_to_vote", 3, "Civic Engagement", "Register to vote (if applicable)",
          "Prepare yourself to participate in civic decisions.", "🗳️"),
    Entry("help_someone_register_vote", 3, "Civic Engagement", "Help someone else register",
          "Make civic participation a bit easier for someone else.", "🤲"),
    Entry("contact_representative", 3, "Civic Engagement", "Contact a representative about an issue",
          "Share your perspective with someone in office.", "📨"),
    Entry("attend_town_hall", 3, "Civic Engagement", "Attend a town hall",
          "Be present where decisions are discussed.", "🏛️")
  ]

  const EnvironmentalStewardship: seq<Entry> := [
    Entry("community_garden", 3, "Environmental Stewardship", "Start or help maintain a community garden",
          "Grow something that others can benefit from.", "🌳"),
    Entry("advocate_environment_cause", 3, "Environmental Stewardship", "Advocate for a local environmental cause",
          "Use your voice for a healthier place to live.", "📢"),
    Entry("reduce_personal_waste_long_term", 3, "Environmental Stewardship", "Reduce personal waste long-term",
          "Design habits that gently shrink your footprint.", "🌎")
  ]

  /** The `quests` array: the groups above, in order. */
  const Groups: seq<seq<Entry>> := [
    SocialKindness,
    PersonalConduct,
    DigitalKindness,
    Relationships,
    Community,
    Environment,
    SelfDevelopment,
    Volunteering,
    LeadershipAndInitiative,
    CivicEngagement,
    EnvironmentalStewardship]

  const Entries: seq<Entry> := Flatten(Groups)

  // Each group on its own: distinct ids and a single tier.
  lemma SocialKindnessRows() ensures DistinctIds(SocialKindness) && TiersWithin(SocialKindness, 1, 1) {}
  lemma PersonalConductRows() ensures DistinctIds(PersonalConduct) && TiersWithin(PersonalConduct, 1, 1) {}
  lemma DigitalKindnessRows() ensures DistinctIds(DigitalKindness) && TiersWithin(DigitalKindness, 1, 1) {}
  lemma RelationshipsRows() ensures DistinctIds(Relationships) && TiersWithin(Relationships, 2, 2) {}
  lemma CommunityRows() ensures DistinctIds(Community) && TiersWithin(Community, 2, 2) {}
  lemma EnvironmentRows() ensures DistinctIds(Environment) && TiersWithin(Environment, 2, 2) {}
  lemma SelfDevelopmentRows() ensures DistinctIds(SelfDevelopment) && TiersWithin(SelfDevelopment, 2, 2) {}
  lemma VolunteeringRows() ensures DistinctIds(Volunteering) && TiersWithin(Volunteering, 3, 3) {}
  lemma LeadershipAndInitiativeRows() ensures DistinctIds(LeadershipAndInitiative) && TiersWithin(LeadershipAndInitiative, 3, 3) {}
  lemma CivicEngagementRows() ensures DistinctIds(CivicEngagement) && TiersWithin(CivicEngagement, 3, 3) {}
  lemma EnvironmentalStewardshipRows() ensures DistinctIds(EnvironmentalStewardship) && TiersWithin(EnvironmentalStewardship, 3, 3) {}

  // Groups k < l share no id (groups numbered 0..10 in source order).
  lemma Apart0_1() ensures Disjoint(SocialKindness, PersonalConduct) {}
  lemma Apart0_2() ensures Disjoint(SocialKindness, DigitalKindness) {}
  lemma Apart0_3() ensures Disjoint(SocialKindness, Relationships) {}
  lemma Apart0_4() ensures Disjoint(SocialKindness, Community) {}
  lemma Apart0_5() ensures Disjoint(SocialKindness, Environment) {}
  lemma Apart0_6() ensures Disjoint(SocialKindness, SelfDevelopment) {}
  lemma Apart0_7() ensures Disjoint(SocialKindness, Volunteering) {}
  lemma Apart0_8() ensures Disjoint(SocialKindness, LeadershipAndInitiative) {}
  lemma Apart0_9() ensures Disjoint(SocialKindness, CivicEngagement) {}
  lemma Apart0_10() ensures Disjoint(SocialKindness, EnvironmentalStewardship) {}
  lemma Apart1_2() ensures Disjoint(PersonalConduct, DigitalKindness) {}
  lemma Apart1_3() ensures Disjoint(PersonalConduct, Relationships) {}
  lemma Apart1_4() ensures Disjoint(PersonalConduct, Community) {}
  lemma Apart1_5() ensures Disjoint(PersonalConduct, Environment) {}
  lemma Apart1_6() ensures Disjoint(PersonalConduct, SelfDevelopment) {}
  lemma Apart1_7() ensures Disjoint(PersonalConduct, Volunteering) {}
  lemma Apart1_8() ensures Disjoint(PersonalConduct, LeadershipAndInitiative) {}
  lemma Apart1_9() ensures Disjoint(PersonalConduct, CivicEngagement) {}
  lemma Apart1_10() ensures Disjoint(PersonalConduct, EnvironmentalStewardship) {}
  lemma Apart2_3() ensures Disjoint(DigitalKindness, Relationships) {}
  lemma Apart2_4() ensures Disjoint(DigitalKindness, Community) {}
  lemma Apart2_5() ensures Disjoint(DigitalKindness, Environment) {}
  lemma Apart2_6() ensures Disjoint(DigitalKindness, SelfDevelopment) {}
  lemma Apart2_7() ensures Disjoint(DigitalKindness, Volunteering) {}
  lemma Apart2_8() ensures Disjoint(DigitalKindness, LeadershipAndInitiative) {}
  lemma Apart2_9() ensures Disjoint(DigitalKindness, CivicEngagement) {}
  lemma Apart2_10() ensures Disjoint(DigitalKindness, EnvironmentalStewardship) {}
  lemma Apart3_4() ensures Disjoint(Relationships, Community) {}
  lemma Apart3_5() ensures Disjoint(Relationships, Environment) {}
  lemma Apart3_6() ensures Disjoint(Relationships, SelfDevelopment) {}
  lemma Apart3_7() ensures Disjoint(Relationships, Volunteering) {}
  lemma Apart3_8() ensures Disjoint(Relationships, LeadershipAndInitiative) {}
  lemma Apart3_9() ensures Disjoint(Relationships, CivicEngagement) {}
  lemma Apart3_10() ensures Disjoint(Relationships, EnvironmentalStewardship) {}
  lemma Apart4_5() ensures Disjoint(Community, Environment) {}
  lemma Apart4_6() ensures Disjoint(Community, SelfDevelopment) {}
  lemma Apart4_7() ensures Disjoint(Community, Volunteering) {}
  lemma Apart4_8() ensures Disjoint(Community, LeadershipAndInitiative) {}
  lemma Apart4_9() ensures Disjoint(Community, CivicEngagement) {}
  lemma Apart4_10() ensures Disjoint(Community, EnvironmentalStewardship) {}
  lemma Apart5_6() ensures Disjoint(Environment, SelfDevelopment) {}
  lemma Apart5_7() ensures Disjoint(Environment, Volunteering) {}
  lemma Apart5_8() ensures Disjoint(Environment, LeadershipAndInitiative) {}
  lemma Apart5_9() ensures Disjoint(Environment, CivicEngagement) {}
  lemma Apart5_10() ensures Disjoint(Environment, EnvironmentalStewardship) {}
  lemma Apart6_7() ensures Disjoint(SelfDevelopment, Volunteering) {}
  lemma Apart6_8() ensures Disjoint(SelfDevelopment, LeadershipAndInitiative) {}
  lemma Apart6_9() ensures Disjoint(SelfDevelopment, CivicEngagement) {}
  lemma Apart6_10() ensures Disjoint(SelfDevelopment, EnvironmentalStewardship) {}
  lemma Apart7_8() ensures Disjoint(Volunteering, LeadershipAndInitiative) {}
  lemma Apart7_9() ensures Disjoint(Volunteering, CivicEngagement) {}
  lemma Apart7_10() ensures Disjoint(Volunteering, EnvironmentalStewardship) {}
  lemma Apart8_9() ensures Disjoint(LeadershipAndInitiative, CivicEngagement) {}
  lemma Apart8_10() ensures Disjoint(LeadershipAndInitiative, EnvironmentalStewardship) {}
  lemma Apart9_10() ensures Disjoint(CivicEngagement, EnvironmentalStewardship) {}

  // The table from group k to the end is well formed, for k = 10 down to 0.
  lemma FromGroup10()
    ensures DistinctIds(Flatten([EnvironmentalStewardship])) && TiersWithin(Flatten([EnvironmentalStewardship]), 1, 3)
  {
    EnvironmentalStewardshipRows();
    ConsGroup(EnvironmentalStewardship, []);
    assert [EnvironmentalStewardship] + [] == [EnvironmentalStewardship];
  }
  lemma FromGroup9()
    ensures DistinctIds(Flatten([CivicEngagement, EnvironmentalStewardship])) && TiersWithin(Flatten([CivicEngagement, EnvironmentalStewardship]), 1, 3)
  {
    CivicEngagementRows();
    FromGroup10();
    Apart9_10();
    ConsGroup(CivicEngagement, [EnvironmentalStewardship]);
    assert [CivicEngagement] + [EnvironmentalStewardship] == [CivicEngagement, EnvironmentalStewardship];
  }
  lemma FromGroup8()
    ensures DistinctIds(Flatten([LeadershipAndInitiative, CivicEngagement, EnvironmentalStewardship])) && TiersWithin(Flatten([LeadershipAndInitiative, CivicEngagement, EnvironmentalStewardship]), 1, 3)
  {
    LeadershipAndInitiativeRows();
    FromGroup9();
    Apart8_9(); Apart8_10();
    ConsGroup(LeadershipAndInitiative, [CivicEngagement, EnvironmentalStewardship]);
    assert [LeadershipAndInitiative] + [CivicEngagement, EnvironmentalStewardship] == [LeadershipAndInitiative, CivicEngagement, EnvironmentalStewardship];
  }
  lemma FromGroup7()
    ensures DistinctIds(Flatten([Volunteering, LeadershipAndInitiative, CivicEngagement, EnvironmentalStewardship])) && TiersWithin(Flatten([Volunteering, LeadershipAndInitiative, CivicEngagement, EnvironmentalStewardship]), 1, 3)
  {
    VolunteeringRows();
    FromGroup8();
    Apart7_8(); Apart7_9(); Apart7_10();
    ConsGroup(Volunteering, [LeadershipAndInitiative, CivicEngagement, EnvironmentalStewardship]);
    assert [Volunteering] + [LeadershipAndInitiative, CivicEngagement, EnvironmentalStewardship] == [Volunteering, LeadershipAndInitiative, CivicEngagement, EnvironmentalStewardship];
  }
  lemma FromGroup6()
    ensures DistinctIds(Flatten([SelfDevelopment, Volunteering, LeadershipAndInitiative, CivicEngagement, EnvironmentalStewardship])) && TiersWithin(Flatten([SelfDevelopment, Volunteering, LeadershipAndInitiative, CivicEngagement, EnvironmentalStewardship]), 1, 3)
  {
    SelfDevelopmentRows();
    FromGroup7();
    Apart6_7(); Apart6_8(); Apart6_9(); Apart6_10();
    ConsGroup(SelfDevelopment, [Volunteering, LeadershipAndInitiative, CivicEngagement, EnvironmentalStewardship]);
    assert [SelfDevelopment] + [Volunteering, LeadershipAndInitiative, CivicEngagement, EnvironmentalStewardship] == [SelfDevelopment, Volunteering, LeadershipAndInitiative, CivicEngagement, EnvironmentalStewardship];
  }
  lemma FromGroup5()
    ensures DistinctIds(Flatten([Environment, SelfDevelopment, Volunteering, LeadershipAndInitiative, CivicEngagement, EnvironmentalStewardship])) && TiersWithin(Flatten([Environment, SelfDevelopment, Volunteering, LeadershipAndInitiative, CivicEngagement, EnvironmentalStewardship]), 1, 3)
  {
    EnvironmentRows();
    FromGroup6();
    Apart5_6(); Apart5_7(); Apart5_8(); Apart5_9(); Apart5_10();
    ConsGroup(Environment, [SelfDevelopment, Volunteering, LeadershipAndInitiative, CivicEngagement, EnvironmentalStewardship]);
    assert [Environment] + [SelfDevelopment, Volunteering, LeadershipAndInitiative, CivicEngagement, EnvironmentalStewardship] == [Environment, SelfDevelopment, Volunteering, LeadershipAndInitiative, CivicEngagement, EnvironmentalStewardship];
  }
  lemma FromGroup4()
    ensures DistinctIds(Flatten([Community, Environment, SelfDevelopment, Volunteering, LeadershipAndInitiative, CivicEngagement, EnvironmentalStewardship])) && TiersWithin(Flatten([Community, Environment, SelfDevelopment, Volunteering, LeadershipAndInitiative, CivicEngagement, EnvironmentalStewardship]), 1, 3)
  {
    CommunityRows();
    FromGroup5();
    Apart4_5(); Apart4_6(); Apart4_7(); Apart4_8(); Apart4_9(); Apart4_10();
    ConsGroup(Community, [Environment, SelfDevelopment, Volunteering, LeadershipAndInitiative, CivicEngagement, EnvironmentalStewardship]);
    assert [Community] + [Environment, SelfDevelopment, Volunteering, LeadershipAndInitiative, CivicEngagement, EnvironmentalStewardship] == [Community, Environment, SelfDevelopment, Volunteering, LeadershipAndInitiative, CivicEngagement, EnvironmentalStewardship];
  }
  lemma FromGroup3()
    ensures DistinctIds(Flatten([Relationships, Community, Environment, SelfDevelopment, Volunteering, LeadershipAndInitiative, CivicEngagement, EnvironmentalStewardship])) && TiersWithin(Flatten([Relationships, Community, Environment, SelfDevelopment, Volunteering, LeadershipAndInitiative, CivicEngagement, EnvironmentalStewardship]), 1, 3)
  {
    RelationshipsRows();
    FromGroup4();
    Apart3_4(); Apart3_5(); Apart3_6(); Apart3_7(); Apart3_8(); Apart3_9(); Apart3_10();
    ConsGroup(Relationships, [Community, Environment, SelfDevelopment, Volunteering, LeadershipAndInitiative, CivicEngagement, EnvironmentalStewardship]);
    assert [Relationships] + [Community, Environment, SelfDevelopment, Volunteering, LeadershipAndInitiative, CivicEngagement, EnvironmentalStewardship] == [Relationships, Community, Environment, SelfDevelopment, Volunteering, LeadershipAndInitiative, CivicEngagement, EnvironmentalStewardship];
  }
  lemma FromGroup2()
    ensures DistinctIds(Flatten([DigitalKindness, Relationships, Community, Environment, SelfDevelopment, Volunteering, LeadershipAndInitiative, CivicEngagement, EnvironmentalStewardship])) && TiersWithin(Flatten([DigitalKindness, Relationships, Community, Environment, SelfDevelopment, Volunteering, LeadershipAndInitiative, CivicEngagement, EnvironmentalStewardship]), 1, 3)
  {
    DigitalKindnessRows();
    FromGroup3();
    Apart2_3(); Apart2_4(); Apart2_5(); Apart2_6(); Apart2_7(); Apart2_8(); Apart2_9(); Apart2_10();
    ConsGroup(DigitalKindness, [Relationships, Community, Environment, SelfDevelopment, Volunteering, LeadershipAndInitiative, CivicEngagement, EnvironmentalStewardship]);
    assert [DigitalKindness] + [Relationships, Community, Environment, SelfDevelopment, Volunteering, LeadershipAndInitiative, CivicEngagement, EnvironmentalStewardship] == [DigitalKindness, Relationships, Community, Environment, SelfDevelopment, Volunteering, LeadershipAndInitiative, CivicEngagement, EnvironmentalStewardship];
  }
  lemma FromGroup1()
    ensures DistinctIds(Flatten([PersonalConduct, DigitalKindness, Relationships, Community, Environment, SelfDevelopment, Volunteering, LeadershipAndInitiative, CivicEngagement, EnvironmentalStewardship])) && TiersWithin(Flatten([PersonalConduct, DigitalKindness, Relationships, Community, Environment, SelfDevelopment, Volunteering, LeadershipAndInitiative, CivicEngagement, EnvironmentalStewardship]), 1, 3)
  {
    PersonalConductRows();
    FromGroup2();
    Apart1_2(); Apart1_3(); Apart1_4(); Apart1_5(); Apart1_6(); Apart1_7(); Apart1_8(); Apart1_9(); Apart1_10();
    ConsGroup(PersonalConduct, [DigitalKindness, Relationships, Community, Environment, SelfDevelopment, Volunteering, LeadershipAndInitiative, CivicEngagement, EnvironmentalStewardship]);
    assert [PersonalConduct] + [DigitalKindness, Relationships, Community, Environment, SelfDevelopment, Volunteering, LeadershipAndInitiative, CivicEngagement, EnvironmentalStewardship] == [PersonalConduct, DigitalKindness, Relationships, Community, Environment, SelfDevelopment, Volunteering, LeadershipAndInitiative, CivicEngagement, EnvironmentalStewardship];
  }
  lemma FromGroup0()
    ensures DistinctIds(Flatten([SocialKindness, PersonalConduct, DigitalKindness, Relationships, Community, Environment, SelfDevelopment, Volunteering, LeadershipAndInitiative, CivicEngagement, EnvironmentalStewardship])) && TiersWithin(Flatten([SocialKindness, PersonalConduct, DigitalKindness, Relationships, Community, Environment, SelfDevelopment, Volunteering, LeadershipAndInitiative, CivicEngagement, EnvironmentalStewardship]), 1, 3)
  {
    SocialKindnessRows();
    FromGroup1();
    Apart0_1(); Apart0_2(); Apart0_3(); Apart0_4(); Apart0_5(); Apart0_6(); Apart0_7(); Apart0_8(); Apart0_9(); Apart0_10();
    ConsGroup(SocialKindness, [PersonalConduct, DigitalKindness, Relationships, Community, Environment, SelfDevelopment, Volunteering, LeadershipAndInitiative, CivicEngagement, EnvironmentalStewardship]);
    assert [SocialKindness] + [PersonalConduct, DigitalKindness, Relationships, Community, Environment, SelfDevelopment, Volunteering, LeadershipAndInitiative, CivicEngagement, EnvironmentalStewardship] == [SocialKindness, PersonalConduct, DigitalKindness, Relationships, Community, Environment, SelfDevelopment, Volunteering, LeadershipAndInitiative, CivicEngagement, EnvironmentalStewardship];
  }

  /** The `quests` table lists every id once, and every tier is 1, 2 or 3. */
  lemma EntriesWellFormed()
    ensures DistinctIds(Entries) && TiersWithin(Entries, 1, 3)
  {
    FromGroup0();
  }
}
