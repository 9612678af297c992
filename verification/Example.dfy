/** One deletion that is under way: the hypotheses of the end-to-end result can be met. */
module Example {
  import opened Results
  import opened GoStrings
  import opened Credentials
  import opened Objects
  import opened Lifecycle
  import opened Checkpoint
  import opened Runner
  import opened RunnerSafety
  import opened Convergence
  import opened Protocol
  import opened Progress
  import opened EndToEnd
  import Authority

  const ENTRY := CloudEntry(true, APPLICATION_CREDENTIAL, "https://k", "", "", "", "", "i", "x")
  const CLOUDS: Clouds := Some(map[DEFAULT_CLOUD := ENTRY])
  const SECRET := Secret("s", "u2", 0, false, [], map[CREDENTIAL_POLICY_ANNOTATION := POLICY_DELETE], CLOUDS)
  const CLUSTER := Cluster("c", "u1", 0, 0, true, [FINALIZER], map[], map[], [], IdentityRef("", "s", ""))
  const NOTHING := Inventory([], [], [], [], [])

  function ExampleWorld(authority: string): World {
    World(map["c" := CLUSTER], map["s" := SECRET], map[], map[(authority, "i") := Token("p", "t")], "", 0, {"u1"}, map["u2" := "s"])
  }

  lemma PlainTextIsTrimmed(s: string)
    requires s != "" && !IsSpace(s[0]) && !IsSpace(s[|s| - 1])
    ensures TrimSpace(s) == s
  {
  }

  lemma HostIsAccepted()
    ensures Authority.IsHostname("k")
  {
    assert Authority.HostChar('k');
    assert Authority.IsRegName("k");
  }

  lemma EmptyPathIsAccepted()
    ensures Authority.IsPathText("") && Authority.Bytes("") && Authority.Unescape("") == Some("")
  {
  }

  lemma ExampleURLText()
    ensures "https" + "://" + "k" + "" == "https://k"
  {
  }

  lemma ExampleURLIsAccepted()
    ensures Authority.NormalizeAuthority("https://k").Ok?
  {
    hide *;
    HostIsAccepted();
    EmptyPathIsAccepted();
    ExampleURLText();
    Authority.NormalizeIgnoresSpelling("https", "k", "k", "");
  }

  lemma EntryIsDescribed()
    ensures DescribeCredential(CLOUDS, DEFAULT_CLOUD).Ok?
    ensures var config := DescribeCredential(CLOUDS, DEFAULT_CLOUD).value;
      && config.credentialID == "i" && config.projectID == "" && config.userID == "" && config.region == ""
      && config.cloudName == DEFAULT_CLOUD
  {
    hide Authority.NormalizeAuthority, TrimSpace;
    ExampleURLIsAccepted();
    PlainTextIsTrimmed("i");
    PlainTextIsTrimmed("x");
  }

  lemma ExampleBindingIsValid()
    requires DescribeCredential(CLOUDS, DEFAULT_CLOUD).Ok?
    ensures ValidateBinding(SessionBinding(DescribeCredential(CLOUDS, DEFAULT_CLOUD).value, Token("p", "t"))).Ok?
  {
    hide DescribeCredential, TrimSpace, ValidateBinding;
    EntryIsDescribed();
    SessionBindingIsValidIff(CLOUDS, DEFAULT_CLOUD, Token("p", "t"));
    PlainTextIsTrimmed("p");
    PlainTextIsTrimmed("t");
    PlainTextIsTrimmed("i");
    PlainTextIsTrimmed(DEFAULT_CLOUD);
    EmptyIsTrimmed();
  }

  lemma ExampleIsUsable() returns (wd: World)
    ensures DescribeCredential(CLOUDS, DEFAULT_CLOUD).Ok?
    ensures wd == ExampleWorld(DescribeCredential(CLOUDS, DEFAULT_CLOUD).value.authority) && Usable(wd, CLUSTER)
  {
    hide DescribeCredential, ValidateBinding;
    EntryIsDescribed();
    ExampleBindingIsValid();
    var config := DescribeCredential(CLOUDS, DEFAULT_CLOUD).value;
    wd := ExampleWorld(config.authority);
    assert SelectedCloud(CLUSTER) == DEFAULT_CLOUD;
    assert OpenSession(wd, CLUSTER, SECRET) == Some(SessionBinding(config, Token("p", "t")));
  }

  lemma EmptyIsTrimmed()
    ensures TrimSpace("") == ""
  {
  }

  /** There are deletions that `FinalizerGoes` is about. */
  lemma SomeDeletionIsUnderway()
    ensures exists wd, inv, c :: Underway(wd, inv, c) && DeletesCredential(wd, c)
  {
    var wd := ExampleIsUsable();
    PlainTextIsTrimmed("c");
    hide Usable, TrimSpace;
    assert ReadCheckpoint(CLUSTER).Absent?;
    assert Ripe(wd, CLUSTER) && !OtherReferences(wd, CLUSTER);
    assert Settled(wd, CLUSTER);
    hide Settled;
    NothingIsReady(RequestFor(wd, CLUSTER));
    assert Underway(wd, NOTHING, CLUSTER) && DeletesCredential(wd, CLUSTER);
  }

  lemma NothingIsReady(req: Request)
    requires req.clusterName != ""
    ensures Ready(NOTHING, req)
  {
  }
}
