/** The application's data model (src/types/index.ts): instruction guides, troubleshooting steps,
  * coffee machines, user roles and the mock users. */
module Types {
  import opened Wrappers
  import Seqs

  /** A guide's category is one of exactly three values. */
  datatype Category = Maintenance | Repair | Cleaning

  /** The string value a category has in the source. */
  function CategoryName(c: Category): string {
    match c
    case Maintenance => "Maintenance"
    case Repair => "Repair"
    case Cleaning => "Cleaning"
  }

  /** One step of an instruction guide; `image` and `videoUrl` are optional. */
  datatype GuideStep = GuideStep(title: string, description: string, image: Option<string>, videoUrl: Option<string>)

  /** An instruction guide: ordered steps, optional tool list and safety alerts. */
  datatype InstructionGuide = InstructionGuide(
    id: string,
    title: string,
    category: Category,
    machineBrand: string,
    machineModel: string,
    summary: string,
    imageUrl: Option<string>,
    steps: seq<GuideStep>,
    tools: Option<seq<string>>,
    safetyAlerts: Option<seq<string>>)

  /** An answer to a question. `nextStepId` may name a question or a solution, or nothing at all:
    * the type makes no promise that the target exists. */
  datatype TroubleshootOption = TroubleshootOption(text: string, nextStepId: string)

  /** A troubleshooting step is exactly one of two variants, discriminated by `type` in the source. */
  datatype TroubleshootStep =
    | Question(id: string, text: string, options: seq<TroubleshootOption>)
    | Solution(id: string, title: string, description: string, guideId: Option<string>, professionalHelp: Option<bool>)

  datatype CoffeeMachine = CoffeeMachine(id: string, brand: string, model: string, imageUrl: Option<string>)

  /** Exactly three roles. */
  datatype UserRole = Normal | Admin | Service

  /** The string value of a role (the enum's initialiser). */
  function RoleValue(r: UserRole): string {
    match r
    case Normal => "Normal"
    case Admin => "Admin"
    case Service => "Service"
  }

  /** The role whose string value is `s`, if any. */
  function RoleOfValue(s: string): (r: Option<UserRole>)
    ensures r.Some? <==> s in {"Normal", "Admin", "Service"}
    ensures r.Some? ==> RoleValue(r.value) == s
  {
    if s == "Normal" then Some(Normal)
    else if s == "Admin" then Some(Admin)
    else if s == "Service" then Some(Service)
    else None
  }

  /** Distinct roles have distinct string values, and each value reads back as its role. */
  lemma RoleValueRoundTrip(r: UserRole)
    ensures RoleOfValue(RoleValue(r)) == Some(r)
    ensures forall q :: RoleValue(q) == RoleValue(r) ==> q == r
  {
  }

  /** A user; `createdAt` (a `Date`) is not modelled. */
  datatype User = User(id: string, email: string, role: UserRole, name: Option<string>)

  const MOCK_USERS: seq<User> := [
    User("user-norm1", "normal@example.com", Normal, Some("Normal User")),
    User("user-admin1", "admin@example.com", Admin, Some("Admin User")),
    User("user-serv1", "service@example.com", Service, Some("Service User"))
  ]

  /** `MOCK_USERS.find(u => u.role === role)`. */
  function FindUserByRole(users: seq<User>, role: UserRole): (r: Option<User>)
    ensures r.Some? ==> r.value in users && r.value.role == role
    ensures r.None? ==> forall u :: u in users ==> u.role != role
  {
    Seqs.Find(users, (u: User) => u.role == role)
  }

  /** How many of `users` have role `role`. */
  function CountRole(users: seq<User>, role: UserRole): (n: nat)
    ensures n <= |users|
    ensures n == 0 <==> forall u :: u in users ==> u.role != role
  {
    if |users| == 0 then 0
    else (if users[0].role == role then 1 else 0) + CountRole(users[1..], role)
  }

  /** The mock users hold exactly one user per role, with distinct ids and distinct emails. */
  lemma MockUsersOnePerRole()
    ensures forall r: UserRole :: CountRole(MOCK_USERS, r) == 1
    ensures forall i, j :: 0 <= i < j < |MOCK_USERS| ==> MOCK_USERS[i].id != MOCK_USERS[j].id
    ensures forall i, j :: 0 <= i < j < |MOCK_USERS| ==> MOCK_USERS[i].email != MOCK_USERS[j].email
    ensures forall r: UserRole :: FindUserByRole(MOCK_USERS, r).Some?
  {
  }
}
