/** The admin dashboard (src/app/admin/page.tsx): a fixed table of features, each open to some
  * roles, filtered by the signed-in user's role. */
module Admin {
  import opened Wrappers
  import opened Types
  import opened Text
  import Seqs

  /** One dashboard card; its icon is left out. */
  datatype AdminFeature = AdminFeature(title: string, description: string, href: string, roles: seq<UserRole>)

  const ADMIN_FEATURES: seq<AdminFeature> := [
    AdminFeature("Manage Instruction Guides", "Create, edit, and delete instruction guides for coffee machines.",
      "/admin/instructions", [Admin, Service]),
    AdminFeature("Manage Coffee Machines", "Add, update, or remove coffee machine models.",
      "/admin/machines", [Admin, Service]),
    AdminFeature("Manage Troubleshooting Content", "Update diagnostic steps and solutions.",
      "/admin/troubleshooting", [Admin, Service]),
    AdminFeature("Configure IoT Monitor", "Set up connections for smart plug monitoring.",
      "/admin/iot-config", [Admin, Service]),
    AdminFeature("User Management (Service)", "Manage admin and normal users (Service role only).",
      "/service/users", [Service])
  ]

  /** The features a user may see: those whose roles include the user's role, in table order; none
    * without a user. */
  function AvailableFeatures(features: seq<AdminFeature>, user: Option<User>): (r: seq<AdminFeature>)
    ensures user.None? ==> r == []
    ensures forall i :: 0 <= i < |r| ==> user.Some? && user.value.role in r[i].roles
    ensures forall f :: f in features && user.Some? && user.value.role in f.roles ==> f in r
    ensures Seqs.IsSubseq(r, features)
  {
    var r := Seqs.Filter(features, (f: AdminFeature) => user.Some? && user.value.role in f.roles);
    assert forall f :: f in features ==> multiset(features)[f] > 0;
    r
  }

  /** The features visible to a role, computed on the table directly. */
  function FeaturesForRole(features: seq<AdminFeature>, role: UserRole): (r: seq<AdminFeature>)
  {
    if |features| == 0 then []
    else (if role in features[0].roles then [features[0]] else []) + FeaturesForRole(features[1..], role)
  }

  /** The user filter is the role filter for any signed-in user. */
  lemma {:induction false} AvailableIsForRole(features: seq<AdminFeature>, u: User)
    ensures AvailableFeatures(features, Some(u)) == FeaturesForRole(features, u.role)
    decreases |features|
  {
    if |features| > 0 {
      AvailableIsForRole(features[1..], u);
    }
  }

  /** Normal users see no feature, ... */
  lemma NormalSeesNone()
    ensures FeaturesForRole(ADMIN_FEATURES, Normal) == []
  {
  }

  /** ... Admin users every feature but user management, ... */
  lemma AdminSeesAllButUsers()
    ensures FeaturesForRole(ADMIN_FEATURES, Admin) == ADMIN_FEATURES[..4]
  {
  }

  /** ... and Service users all of them. */
  lemma ServiceSeesAll()
    ensures FeaturesForRole(ADMIN_FEATURES, Service) == ADMIN_FEATURES
  {
  }

  /** Only user management is restricted to the Service role alone. */
  lemma OnlyUserManagementIsServiceOnly()
    ensures forall i :: 0 <= i < |ADMIN_FEATURES| ==>
      (ADMIN_FEATURES[i].roles == [Service] <==> ADMIN_FEATURES[i].href == "/service/users")
  {
  }

  /** The card's button text: "Go to " and the title's second blank-separated word; JSX renders a
    * missing word as nothing. */
  function ButtonLabel(title: string): (r: string)
    ensures Prefix(r, 6) == "Go to "
    ensures ' ' !in r[6..]
    ensures ' ' !in title ==> r == "Go to "
  {
    var words := Split(title, ' ');
    SplitPiecesNoSep(title, ' ');
    assert ' ' !in title ==> words == [title] by {
      if ' ' !in title { SplitNoSep(title, ' '); }
    }
    "Go to " + (if |words| > 1 then words[1] else "")
  }

  /** A title whose first word `a` is followed by the word `b` is labelled with `b`. */
  lemma LabelOfTitle(a: string, b: string, rest: string)
    requires ' ' !in a && ' ' !in b
    requires |rest| == 0 || rest[0] == ' '
    ensures ButtonLabel(a + " " + b + rest) == "Go to " + b
  {
    assert a + " " + b + rest == a + [' '] + (b + rest);
    SplitAfterPiece(a, b + rest, ' ');
    SplitFirstPiece(b, rest, ' ');
  }

  /** The words the five button labels pick, in table order. */
  const LABEL_WORDS: seq<string> := ["Instruction", "Coffee", "Troubleshooting", "IoT", "Management"]

  /** The label of the card at position `i`. */
  lemma CardLabel(i: nat, title: string)
    requires i < |ADMIN_FEATURES| && title == ADMIN_FEATURES[i].title
    ensures ButtonLabel(title) == "Go to " + LABEL_WORDS[i]
  {
    if i == 0 {
      InstructionCardLabel(i, title);
    } else if i == 1 {
      CoffeeCardLabel(i, title);
    } else if i == 2 {
      TroubleshootingCardLabel(i, title);
    } else if i == 3 {
      IoTCardLabel(i, title);
    } else {
      ManagementCardLabel(i, title);
    }
  }

  // One lemma per card: each literal title is taken apart in a proof of its own.
  lemma InstructionCardLabel(i: nat, title: string)
    requires i == 0 && title == ADMIN_FEATURES[i].title
    ensures ButtonLabel(title) == "Go to " + LABEL_WORDS[i]
  {
    assert title == "Manage" + " " + "Instruction" + " Guides";
    LabelOfTitle("Manage", "Instruction", " Guides");
  }

  lemma CoffeeCardLabel(i: nat, title: string)
    requires i == 1 && title == ADMIN_FEATURES[i].title
    ensures ButtonLabel(title) == "Go to " + LABEL_WORDS[i]
  {
    assert title == "Manage" + " " + "Coffee" + " Machines";
    LabelOfTitle("Manage", "Coffee", " Machines");
  }

  lemma TroubleshootingCardLabel(i: nat, title: string)
    requires i == 2 && title == ADMIN_FEATURES[i].title
    ensures ButtonLabel(title) == "Go to " + LABEL_WORDS[i]
  {
    assert title == "Manage" + " " + "Troubleshooting" + " Content";
    LabelOfTitle("Manage", "Troubleshooting", " Content");
  }

  lemma IoTCardLabel(i: nat, title: string)
    requires i == 3 && title == ADMIN_FEATURES[i].title
    ensures ButtonLabel(title) == "Go to " + LABEL_WORDS[i]
  {
    assert title == "Configure" + " " + "IoT" + " Monitor";
    LabelOfTitle("Configure", "IoT", " Monitor");
  }

  lemma ManagementCardLabel(i: nat, title: string)
    requires i == 4 && title == ADMIN_FEATURES[i].title
    ensures ButtonLabel(title) == "Go to " + LABEL_WORDS[i]
  {
    assert title == "User" + " " + "Management" + " (Service)";
    LabelOfTitle("User", "Management", " (Service)");
  }

  /** The button texts of the five cards, in table order. */
  lemma ButtonLabels()
    ensures forall i :: 0 <= i < |ADMIN_FEATURES| ==> ButtonLabel(ADMIN_FEATURES[i].title) == "Go to " + LABEL_WORDS[i]
  {
    forall i | 0 <= i < |ADMIN_FEATURES|
      ensures ButtonLabel(ADMIN_FEATURES[i].title) == "Go to " + LABEL_WORDS[i]
    {
      CardLabel(i, ADMIN_FEATURES[i].title);
    }
  }
}
