/** The agent service: a list of registered travel agents with unique usernames and
    unique emails, and a credential check over it. */
module AgentService {
  import opened Common

  datatype Agent = Agent(
    username: string,
    email: string,
    password: string,
    fullName: string,
    phoneNumber: string,
    agencyName: string)

  /** `any(a.username == username for a in agents)`. */
  function UsernameTaken(agents: seq<Agent>, username: string): (taken: bool)
    ensures taken <==> exists i :: 0 <= i < |agents| && agents[i].username == username
  {
    if agents == [] then false
    else agents[0].username == username || UsernameTaken(agents[1..], username)
  }

  /** `any(a.email == email for a in agents)`. */
  function EmailTaken(agents: seq<Agent>, email: string): (taken: bool)
    ensures taken <==> exists i :: 0 <= i < |agents| && agents[i].email == email
  {
    if agents == [] then false
    else agents[0].email == email || EmailTaken(agents[1..], email)
  }

  /** No two agents share a username, and no two share an email. */
  predicate UniqueLogins(agents: seq<Agent>) {
    forall i, j :: 0 <= i < j < |agents| ==>
      agents[i].username != agents[j].username && agents[i].email != agents[j].email
  }

  /** `register_agent` as a transition: the username check comes first, then the email
      check; a new agent is appended at the end. */
  function Register(agents: seq<Agent>, a: Agent): (r: Result<seq<Agent>>)
    ensures UsernameTaken(agents, a.username) ==> r == Err(400, "Username already exists")
    ensures !UsernameTaken(agents, a.username) && EmailTaken(agents, a.email) ==>
              r == Err(400, "Email already exists")
    ensures r.Ok? <==> !UsernameTaken(agents, a.username) && !EmailTaken(agents, a.email)
    ensures r.Ok? ==> r.value == agents + [a]
  {
    if UsernameTaken(agents, a.username) then Err(400, "Username already exists")
    else if EmailTaken(agents, a.email) then Err(400, "Email already exists")
    else Ok(agents + [a])
  }

  /** Registration keeps usernames and emails unique. */
  lemma RegisterKeepsLoginsUnique(agents: seq<Agent>, a: Agent)
    requires UniqueLogins(agents) && Register(agents, a).Ok?
    ensures UniqueLogins(Register(agents, a).value)
  {
    var s := agents + [a];
    forall i, j | 0 <= i < j < |s| ensures s[i].username != s[j].username && s[i].email != s[j].email {
      assert s[i] == agents[i];
      if j < |agents| { assert s[j] == agents[j]; }
    }
  }

  predicate Matches(a: Agent, username: string, password: string) {
    a.username == username && a.password == password
  }

  /** `next((a for a in agents if ...), None)`: the position of the first agent with these
      credentials. */
  function FindAgent(agents: seq<Agent>, username: string, password: string): (r: Option<nat>)
    ensures r.Some? ==> r.value < |agents| && Matches(agents[r.value], username, password)
    ensures r.Some? ==> forall j :: 0 <= j < r.value ==> !Matches(agents[j], username, password)
    ensures r.None? <==> forall j :: 0 <= j < |agents| ==> !Matches(agents[j], username, password)
  {
    if agents == [] then None
    else if Matches(agents[0], username, password) then Some(0)
    else match FindAgent(agents[1..], username, password)
      case None => None
      case Some(k) => Some(k + 1)
  }

  /** With unique usernames at most one agent matches, so the first match is the match. */
  lemma FindAgentUnique(agents: seq<Agent>, username: string, password: string, i: nat)
    requires UniqueLogins(agents) && i < |agents| && Matches(agents[i], username, password)
    ensures FindAgent(agents, username, password) == Some(i)
  {
  }

  class AgentStore {
    var agents: seq<Agent>

    constructor ()
      ensures agents == []
    {
      agents := [];
    }

    /** `GET /agents`. */
    method GetAgents() returns (r: seq<Agent>)
      ensures r == agents
    {
      r := agents;
    }

    /** `POST /agents/register`. */
    method RegisterAgent(a: Agent) returns (r: Result<string>)
      modifies this
      ensures var t := Register(old(agents), a);
        && (t.Ok? ==> agents == t.value && r == Ok("Agent registered successfully"))
        && (t.Err? ==> agents == old(agents) && r == Err(t.status, t.detail))
      ensures UniqueLogins(old(agents)) ==> UniqueLogins(agents)
    {
      if UsernameTaken(agents, a.username) {
        return Err(400, "Username already exists");
      }
      if EmailTaken(agents, a.email) {
        return Err(400, "Email already exists");
      }
      if UniqueLogins(agents) {
        RegisterKeepsLoginsUnique(agents, a);
      }
      agents := agents + [a];
      r := Ok("Agent registered successfully");
    }

    /** `POST /agents/login`: succeeds exactly when some agent has both the username and
        the password; reads the list only. */
    method LoginAgent(username: string, password: string) returns (r: Result<string>)
      ensures r.Ok? <==> exists i :: 0 <= i < |agents| && Matches(agents[i], username, password)
      ensures r.Ok? ==> r.value == "Login successful"
      ensures r.Err? ==> r == Err(401, "Invalid credentials")
    {
      var found := FindAgent(agents, username, password);
      if found.None? {
        return Err(401, "Invalid credentials");
      }
      r := Ok("Login successful");
    }
  }
}
