/** The initial agent registry: the sixteen agents inserted into an empty
    agents table, and the guard that makes seeding happen at most once. */
module Seed {
  import opened Common
  import opened Store
  import BaseAgent
  import WorkflowRouter

  /** One literal entry of the seed lists. */
  datatype SeedEntry = SeedEntry(
    name: string,
    agentType: string,
    subdomain: string,
    port: int,
    description: string,
    capabilities: seq<string>,
    dependencies: seq<string>)

  const CoreAgents: seq<SeedEntry> := [
    SeedEntry("masterlinc", "core", "master.brainsait.io", 8000,
              "Central orchestration hub for all LINC agents",
              ["orchestration", "routing", "monitoring", "load_balancing"],
              []),
    SeedEntry("authlinc", "core", "auth.brainsait.io", 8001,
              "Authentication and authorization gateway",
              ["authentication", "authorization", "session_management", "rbac"],
              ["masterlinc"]),
    SeedEntry("oidlinc", "core", "oid.brainsait.io", 8050,
              "Digital identity manager using PEN OID system",
              ["digital_identity", "healthcare_ids", "national_records"],
              ["authlinc"])
  ]

  const HealthcareAgents: seq<SeedEntry> := [
    SeedEntry("doctorlinc", "healthcare", "doctor.brainsait.io", 8010,
              "Physician assistant for clinical decision support",
              ["clinical_documentation", "fhir_integration", "arabic_transcription", "soap_notes"],
              ["authlinc", "oidlinc"]),
    SeedEntry("nurslinc", "healthcare", "nurse.brainsait.io", 8011,
              "Nursing workflow automation and support",
              ["shift_reports", "care_checklists", "medication_scheduling"],
              ["doctorlinc", "authlinc"]),
    SeedEntry("patientlinc", "healthcare", "patient.brainsait.io", 8012,
              "Patient experience navigator and health education",
              ["patient_education", "appointment_scheduling", "health_tracking"],
              ["authlinc", "oidlinc"]),
    SeedEntry("careteamlinc", "healthcare", "careteam.brainsait.io", 8013,
              "Multi-provider care coordination",
              ["care_coordination", "provider_communication", "telehealth"],
              ["doctorlinc", "nurslinc", "patientlinc"])
  ]

  const BusinessAgents: seq<SeedEntry> := [
    SeedEntry("bizlinc", "business", "biz.brainsait.io", 8020,
              "Healthcare business intelligence and SME support",
              ["business_intelligence", "saudi_compliance", "rfp_generation"],
              ["authlinc"]),
    SeedEntry("paylinc", "business", "pay.brainsait.io", 8021,
              "Payment processing and financial management",
              ["payment_processing", "billing", "financial_reporting"],
              ["authlinc", "bizlinc"]),
    SeedEntry("insightlinc", "business", "insight.brainsait.io", 8022,
              "Business analytics and intelligence dashboards",
              ["analytics", "reporting", "dashboards", "kpi_tracking"],
              ["bizlinc", "paylinc"])
  ]

  const DevelopmentAgents: seq<SeedEntry> := [
    SeedEntry("devlinc", "development", "dev.brainsait.io", 8030,
              "DevOps automation and infrastructure management",
              ["devops", "deployment", "monitoring", "infrastructure"],
              ["masterlinc"]),
    SeedEntry("autolinc", "automation", "auto.brainsait.io", 8031,
              "Workflow orchestration and cross-platform automation",
              ["workflow_automation", "integration", "n8n_management"],
              ["devlinc"]),
    SeedEntry("codelinc", "development", "code.brainsait.io", 8032,
              "Code generation and development assistance",
              ["code_generation", "documentation", "api_integration"],
              ["devlinc"])
  ]

  const ContentAgents: seq<SeedEntry> := [
    SeedEntry("medialinc", "content", "media.brainsait.io", 8040,
              "Multimedia content transformation and localization",
              ["video_processing", "arabic_dubbing", "content_localization"],
              ["authlinc"]),
    SeedEntry("edulinc", "content", "edu.brainsait.io", 8041,
              "Educational content management and course creation",
              ["lms_integration", "course_authoring", "assessment_creation"],
              ["medialinc"]),
    SeedEntry("chatlinc", "communication", "chat.brainsait.io", 8042,
              "Multilingual communication hub",
              ["multilingual_chat", "intent_recognition", "customer_service"],
              ["authlinc"])
  ]

  /** `core_agents + healthcare_agents + business_agents + dev_agents + content_agents`. */
  const AllAgents: seq<SeedEntry> := CoreAgents + HealthcareAgents + BusinessAgents + DevelopmentAgents + ContentAgents

  /** A JSON list of strings. */
  function StrList(xs: seq<string>): (v: Value)
    ensures v.List? && |v.items| == |xs|
    ensures forall k :: 0 <= k < |xs| ==> v.items[k] == Str(xs[k])
  {
    List(seq(|xs|, k requires 0 <= k < |xs| => Str(xs[k])))
  }

  /** `Agent(**agent_data)`: the entry's columns over the column defaults. */
  function SeedRecord(e: SeedEntry, now: int): AgentRecord
  {
    NewAgent(Str(e.name), now).(
      agentType := Str(e.agentType),
      subdomain := Str(e.subdomain),
      port := Int(e.port),
      description := Str(e.description),
      capabilities := StrList(e.capabilities),
      dependencies := StrList(e.dependencies))
  }

  function SeedRows(entries: seq<SeedEntry>, now: int): (rows: seq<AgentRecord>)
    ensures |rows| == |entries|
    ensures forall i :: 0 <= i < |entries| ==> rows[i] == SeedRecord(entries[i], now)
  {
    seq(|entries|, i requires 0 <= i < |entries| => SeedRecord(entries[i], now))
  }

  /** The store after `seed_initial_data`: untouched when any agent row exists. */
  function SeedTables(t: Tables, now: int): Tables
  {
    if |t.agents| > 0 then t else t.(agents := SeedRows(AllAgents, now))
  }

  /** `seed_initial_data`: the guard, then one `db.add` per entry and the commit. */
  method SeedInitialData(db: Database, now: int) returns (outcome: Outcome)
    requires Consistent(db.Snapshot())
    modifies db
    ensures outcome == Committed
    ensures db.Snapshot() == SeedTables(old(db.Snapshot()), now)
  {
    var t := db.Snapshot();
    if |t.agents| > 0 {
      outcome := db.Run(Ok(t));
      return;
    }
    var rows: seq<AgentRecord> := [];
    for i := 0 to |AllAgents|
      invariant rows == SeedRows(AllAgents[..i], now)
    {
      rows := rows + [SeedRecord(AllAgents[i], now)];
    }
    assert AllAgents[..|AllAgents|] == AllAgents;
    SeedRowsConsistent(now);
    outcome := db.Run(Ok(t.(agents := rows)));
  }

  // ---------------------------------------------------------------------
  // Properties of the seed table.

  function Names(entries: seq<SeedEntry>): (r: seq<string>)
    ensures |r| == |entries| && forall i :: 0 <= i < |entries| ==> r[i] == entries[i].name
  {
    seq(|entries|, i requires 0 <= i < |entries| => entries[i].name)
  }

  function Subdomains(entries: seq<SeedEntry>): (r: seq<string>)
    ensures |r| == |entries| && forall i :: 0 <= i < |entries| ==> r[i] == entries[i].subdomain
  {
    seq(|entries|, i requires 0 <= i < |entries| => entries[i].subdomain)
  }

  function Ports(entries: seq<SeedEntry>): (r: seq<int>)
    ensures |r| == |entries| && forall i :: 0 <= i < |entries| ==> r[i] == entries[i].port
  {
    seq(|entries|, i requires 0 <= i < |entries| => entries[i].port)
  }

  const SeedNameList: seq<string> := [
    "masterlinc", "authlinc", "oidlinc", "doctorlinc", "nurslinc", "patientlinc", "careteamlinc",
    "bizlinc", "paylinc", "insightlinc", "devlinc", "autolinc", "codelinc", "medialinc", "edulinc", "chatlinc"]

  const SeedSubdomainList: seq<string> := [
    "master.brainsait.io", "auth.brainsait.io", "oid.brainsait.io", "doctor.brainsait.io",
    "nurse.brainsait.io", "patient.brainsait.io", "careteam.brainsait.io", "biz.brainsait.io",
    "pay.brainsait.io", "insight.brainsait.io", "dev.brainsait.io", "auto.brainsait.io",
    "code.brainsait.io", "media.brainsait.io", "edu.brainsait.io", "chat.brainsait.io"]

  const SeedPortList: seq<int> := [
    8000, 8001, 8050, 8010, 8011, 8012, 8013, 8020, 8021, 8022, 8030, 8031, 8032, 8040, 8041, 8042]

  const SeedDependencyList: seq<seq<string>> := [
    [], ["masterlinc"], ["authlinc"], ["authlinc", "oidlinc"], ["doctorlinc", "authlinc"],
    ["authlinc", "oidlinc"], ["doctorlinc", "nurslinc", "patientlinc"], ["authlinc"],
    ["authlinc", "bizlinc"], ["bizlinc", "paylinc"], ["masterlinc"], ["devlinc"], ["devlinc"],
    ["authlinc"], ["medialinc"], ["authlinc"]]

  /** The seed holds sixteen agents, in this order, with these subdomains,
      ports and dependencies. */
  lemma SeedColumns()
    ensures Names(AllAgents) == SeedNameList
    ensures Subdomains(AllAgents) == SeedSubdomainList
    ensures Ports(AllAgents) == SeedPortList
    ensures Dependencies(AllAgents) == SeedDependencyList
  {
    SeedNameColumn();
    SeedSubdomainColumn();
    SeedPortColumn();
    SeedDependencyColumn();
  }

  lemma SeedNameColumn()
    ensures Names(AllAgents) == SeedNameList
  {
  }

  lemma SeedSubdomainColumn()
    ensures Subdomains(AllAgents) == SeedSubdomainList
  {
  }

  lemma SeedPortColumn()
    ensures Ports(AllAgents) == SeedPortList
  {
  }

  lemma SeedDependencyColumn()
    ensures Dependencies(AllAgents) == SeedDependencyList
  {
  }

  function Dependencies(entries: seq<SeedEntry>): (r: seq<seq<string>>)
    ensures |r| == |entries| && forall i :: 0 <= i < |entries| ==> r[i] == entries[i].dependencies
  {
    seq(|entries|, i requires 0 <= i < |entries| => entries[i].dependencies)
  }

  const NameKeys: seq<int> := [
    10109116, 8097104, 7111108, 10100116, 8110115, 11112105, 12099101, 7098108,
    7112108, 11105105, 7100108, 8097111, 8099101, 9109105, 7101108, 8099116]

  const SubdomainKeys: seq<int> := [
    19109116, 17097104, 16111046, 19100116, 18110115, 20112105, 21099101, 16098046,
    16112046, 20105105, 16100046, 17097111, 17099101, 18109105, 16101046, 17099116]

  lemma NameKeysOfList()
    ensures ShapeKeys(SeedNameList) == NameKeys
  {
  }

  lemma SubdomainKeysOfList()
    ensures ShapeKeys(SeedSubdomainList) == SubdomainKeys
  {
  }

  lemma KeysDistinct()
    ensures Distinct(NameKeys) && Distinct(SubdomainKeys)
  {
  }

  lemma NameListDistinct()
    ensures Distinct(SeedNameList)
  {
    NameKeysOfList();
    KeysDistinct();
    DistinctByKey(SeedNameList);
  }

  lemma SubdomainListDistinct()
    ensures Distinct(SeedSubdomainList)
  {
    SubdomainKeysOfList();
    KeysDistinct();
    DistinctByKey(SeedSubdomainList);
  }

  /** Seeded names, subdomains and ports are pairwise distinct, as the
      unique columns require. */
  lemma SeedDistinct()
    ensures Distinct(Names(AllAgents))
    ensures Distinct(Subdomains(AllAgents))
    ensures Distinct(Ports(AllAgents))
  {
    SeedNameColumn();
    NameListDistinct();
    SeedSubdomainColumn();
    SubdomainListDistinct();
    SeedPortColumn();
    PortListDistinct();
  }

  lemma PortListDistinct()
    ensures Distinct(SeedPortList)
  {
  }

  lemma DependencyListEarlier()
    ensures forall i, d :: 0 <= i < |SeedDependencyList| && d in SeedDependencyList[i] ==> d in SeedNameList[..i]
  {
    forall i, d | 0 <= i < |SeedDependencyList| && d in SeedDependencyList[i]
      ensures d in SeedNameList[..i]
    {
      if i == 0 {
        
      } else if i == 1 {
        assert SeedNameList[..1][0] == "masterlinc";
      } else if i == 2 {
        assert SeedNameList[..2][1] == "authlinc";
      } else if i == 3 {
        assert SeedNameList[..3][1] == "authlinc"; assert SeedNameList[..3][2] == "oidlinc";
      } else if i == 4 {
        assert SeedNameList[..4][3] == "doctorlinc"; assert SeedNameList[..4][1] == "authlinc";
      } else if i == 5 {
        assert SeedNameList[..5][1] == "authlinc"; assert SeedNameList[..5][2] == "oidlinc";
      } else if i == 6 {
        assert SeedNameList[..6][3] == "doctorlinc"; assert SeedNameList[..6][4] == "nurslinc"; assert SeedNameList[..6][5] == "patientlinc";
      } else if i == 7 {
        assert SeedNameList[..7][1] == "authlinc";
      } else if i == 8 {
        assert SeedNameList[..8][1] == "authlinc"; assert SeedNameList[..8][7] == "bizlinc";
      } else if i == 9 {
        assert SeedNameList[..9][7] == "bizlinc"; assert SeedNameList[..9][8] == "paylinc";
      } else if i == 10 {
        assert SeedNameList[..10][0] == "masterlinc";
      } else if i == 11 {
        assert SeedNameList[..11][10] == "devlinc";
      } else if i == 12 {
        assert SeedNameList[..12][10] == "devlinc";
      } else if i == 13 {
        assert SeedNameList[..13][1] == "authlinc";
      } else if i == 14 {
        assert SeedNameList[..14][13] == "medialinc";
      } else if i == 15 {
        assert SeedNameList[..15][1] == "authlinc";
      }
    }
  }

  /** Every dependency names an agent listed earlier, so the list order is a
      valid start order and the dependency relation has no cycle. */
  lemma SeedDependenciesEarlier()
    ensures forall i, d :: 0 <= i < |AllAgents| && d in AllAgents[i].dependencies ==> d in Names(AllAgents)[..i]
  {
    SeedColumns();
    DependencyListEarlier();
    forall i, d | 0 <= i < |AllAgents| && d in AllAgents[i].dependencies
      ensures d in Names(AllAgents)[..i]
    {
      assert AllAgents[i].dependencies == SeedDependencyList[i];
    }
  }

  /** The seeded rows satisfy every constraint of the agents table. */
  lemma SeedRowsConsistent(now: int)
    ensures AgentsConsistent(SeedRows(AllAgents, now))
  {
    SeedDistinct();
    var rows := SeedRows(AllAgents, now);
    forall i, j | 0 <= i < j < |rows|
      ensures rows[i].name != rows[j].name && rows[i].subdomain != rows[j].subdomain && rows[i].port != rows[j].port
    {
      assert Names(AllAgents)[i] != Names(AllAgents)[j];
      assert Subdomains(AllAgents)[i] != Subdomains(AllAgents)[j];
      assert Ports(AllAgents)[i] != Ports(AllAgents)[j];
    }
  }

  /** Seeding twice is seeding once: the second call finds agents and returns. */
  lemma SeedIdempotent(t: Tables, now: int, later: int)
    ensures SeedTables(SeedTables(t, now), later) == SeedTables(t, now)
    ensures |t.agents| > 0 ==> SeedTables(t, now) == t
    ensures |t.agents| == 0 ==> |SeedTables(t, now).agents| == 16
  {
  }

  /** The seed rows of masterlinc, authlinc and doctorlinc carry the ports and
      dependencies those agents' constructors pass. */
  lemma ConstructorsMatchSeed()
    ensures AllAgents[0].name == BaseAgent.MasterLincConfig.name
      && AllAgents[0].port == BaseAgent.MasterLincConfig.port
      && AllAgents[0].dependencies == BaseAgent.MasterLincConfig.dependencies
    ensures AllAgents[1].name == BaseAgent.AuthLincConfig.name
      && AllAgents[1].port == BaseAgent.AuthLincConfig.port
      && AllAgents[1].dependencies == BaseAgent.AuthLincConfig.dependencies
    ensures AllAgents[3].name == BaseAgent.DoctorLincConfig.name
      && AllAgents[3].port == BaseAgent.DoctorLincConfig.port
      && AllAgents[3].dependencies == BaseAgent.DoctorLincConfig.dependencies
  {
  }

  /** Every agent the intent router can name, as primary or supporter, is a
      seeded agent. */
  lemma RoutedAgentsAreSeeded()
    ensures forall a :: a in WorkflowRouter.Agents(WorkflowRouter.IntentKeywords) ==> a in Names(AllAgents)
    ensures forall p, a :: p in WorkflowRouter.SupportMap && a in WorkflowRouter.SupportMap[p] ==> a in Names(AllAgents)
  {
    SeedColumns();
    assert WorkflowRouter.Agents(WorkflowRouter.IntentKeywords)
      == ["doctorlinc", "nurslinc", "patientlinc", "bizlinc", "paylinc", "chatlinc"];
  }
}
