/** Instance names that carry a session ID and the start of a deployment ID, for a provider that keeps
    no metadata, and how a listing reads them back. */
module InstanceNames {
  import opened Wrappers
  import opened Providers

  const LABEL_PREFIX := "shopper-"
  const SEPARATOR := "-deploy-"
  const FALLBACK := "shopper-instance"
  const DEPLOYMENT_LENGTH := 8

  predicate Alnum(c: char) {
    'a' <= c <= 'z' || 'A' <= c <= 'Z' || '0' <= c <= '9'
  }

  predicate Allowed(c: char) {
    Alnum(c) || c == '-'
  }

  predicate AllAllowed(s: string) {
    forall i :: 0 <= i < |s| ==> Allowed(s[i])
  }

  /** What the provider accepts: letters, digits and hyphens, at least two, no hyphen at either end. */
  predicate Accepted(name: string) {
    |name| >= 2 && AllAllowed(name) && Alnum(name[0]) && Alnum(name[|name| - 1])
  }

  function Kept(s: string): string {
    if s == "" then ""
    else if Allowed(s[|s| - 1]) then Kept(s[..|s| - 1]) + [s[|s| - 1]]
    else Kept(s[..|s| - 1])
  }

  function TrimLeft(s: string): string {
    if s != "" && s[0] == '-' then TrimLeft(s[1..]) else s
  }

  function TrimRight(s: string): string {
    if s != "" && s[|s| - 1] == '-' then TrimRight(s[..|s| - 1]) else s
  }

  function Sanitized(name: string): string {
    var trimmed := TrimRight(TrimLeft(Kept(name)));
    if |trimmed| < 2 then FALLBACK else trimmed
  }

  method SanitizeInstanceName(name: string) returns (r: string)
    ensures r == Sanitized(name)
  {
    var b := "";
    for i := 0 to |name|
      invariant b == Kept(name[..i])
    {
      assert name[..i + 1][..i] == name[..i];
      if Allowed(name[i]) {
        b := b + [name[i]];
      }
    }
    assert name[..|name|] == name;
    var trimmed := TrimRight(TrimLeft(b));
    r := if |trimmed| < 2 then FALLBACK else trimmed;
  }

  lemma {:induction false} KeptAllowed(s: string)
    ensures AllAllowed(Kept(s)) && (AllAllowed(s) ==> Kept(s) == s)
  {
    if s != "" {
      KeptAllowed(s[..|s| - 1]);
      assert s == s[..|s| - 1] + [s[|s| - 1]];
    }
  }

  lemma {:induction false} TrimLeftEdge(s: string)
    requires AllAllowed(s)
    ensures AllAllowed(TrimLeft(s)) && (TrimLeft(s) != "" ==> Alnum(TrimLeft(s)[0]))
  {
    if s != "" && s[0] == '-' {
      TrimLeftEdge(s[1..]);
    }
  }

  lemma {:induction false} TrimRightEdge(s: string)
    requires AllAllowed(s) && (s != "" ==> Alnum(s[0]))
    ensures AllAllowed(TrimRight(s))
    ensures TrimRight(s) != "" ==> Alnum(TrimRight(s)[0]) && Alnum(TrimRight(s)[|TrimRight(s)| - 1])
  {
    if s != "" && s[|s| - 1] == '-' {
      TrimRightEdge(s[..|s| - 1]);
    }
  }

  /** Whatever the input, the sanitized name is accepted; and an accepted name is left as it is. */
  lemma SanitizedIsAccepted(name: string)
    ensures Accepted(Sanitized(name))
    ensures Accepted(name) <==> Sanitized(name) == name
  {
    hide Kept, TrimLeft, TrimRight, AllAllowed;
    KeptAllowed(name);
    TrimLeftEdge(Kept(name));
    TrimRightEdge(TrimLeft(Kept(name)));
    FallbackIsAccepted();
    if Accepted(name) {
      NothingToTrim(name);
    }
  }

  /** What is kept of a text is kept of its parts: letters, digits and hyphens one by one, in their order. */
  lemma {:induction false} KeptParts(a: string, b: string)
    ensures Kept(a + b) == Kept(a) + Kept(b)
  {
    if b == "" {
      assert a + b == a;
    } else {
      assert (a + b)[..|a + b| - 1] == a + b[..|b| - 1];
      KeptParts(a, b[..|b| - 1]);
    }
  }

  lemma KeptOne(c: char)
    ensures Kept([c]) == if 'a' <= c <= 'z' || 'A' <= c <= 'Z' || '0' <= c <= '9' || c == '-' then [c] else ""
  {
    assert [c][..0] == "";
  }

  predicate Hyphens(s: string) {
    forall i :: 0 <= i < |s| ==> s[i] == '-'
  }

  /** The name is cut to what is between its first and its last letter or digit, less what is not allowed there; if
      that is no two characters the fallback takes its place. */
  lemma SanitizedIsCore(head: string, core: string, tail: string)
    requires forall i :: 0 <= i < |head| ==> !Alnum(head[i])
    requires forall i :: 0 <= i < |tail| ==> !Alnum(tail[i])
    requires core != "" ==> Alnum(core[0]) && Alnum(core[|core| - 1])
    ensures Sanitized(head + core + tail) == if |Kept(core)| >= 2 then Kept(core) else FALLBACK
  {
    hide Kept, TrimLeft, TrimRight, Alnum, Hyphens;
    KeptParts(head + core, tail);
    KeptParts(head, core);
    NothingButHyphens(head);
    NothingButHyphens(tail);
    KeptEnds(core);
    TrimRuns(Kept(head), Kept(core), Kept(tail));
  }

  lemma TrimRuns(head: string, core: string, tail: string)
    requires Hyphens(head) && Hyphens(tail)
    requires core != "" ==> core[0] != '-' && core[|core| - 1] != '-'
    ensures TrimRight(TrimLeft(head + core + tail)) == core
  {
    if core == "" {
      TrimRun(head + tail, "", "");
      assert head + core + tail == head + tail + "" + "";
    } else {
      TrimRun(head, core, tail);
    }
  }

  lemma {:induction false} NothingButHyphens(s: string)
    requires forall i :: 0 <= i < |s| ==> !Alnum(s[i])
    ensures Hyphens(Kept(s))
  {
    if s != "" {
      NothingButHyphens(s[..|s| - 1]);
    }
  }

  lemma KeptEnds(core: string)
    requires core != "" ==> Alnum(core[0]) && Alnum(core[|core| - 1])
    ensures Kept(core) == "" <==> core == ""
    ensures core != "" ==> Kept(core)[0] != '-' && Kept(core)[|Kept(core)| - 1] != '-'
  {
    if core != "" {
      assert core == [core[0]] + core[1..] && core == core[..|core| - 1] + [core[|core| - 1]];
      KeptParts([core[0]], core[1..]);
      KeptOne(core[0]);
    }
  }

  /** Runs of hyphens at the ends are trimmed, and nothing else. */
  lemma {:induction false} TrimRun(head: string, core: string, tail: string)
    requires Hyphens(head) && Hyphens(tail)
    requires core == "" ==> tail == ""
    requires core != "" ==> core[0] != '-' && core[|core| - 1] != '-'
    ensures TrimRight(TrimLeft(head + core + tail)) == core
    decreases |head| + |tail|
  {
    var s := head + core + tail;
    if head != "" {
      assert s[1..] == head[1..] + core + tail && s[0] == '-';
      TrimRun(head[1..], core, tail);
    } else if tail != "" {
      assert TrimLeft(s) == s && s[..|s| - 1] == head + core + tail[..|tail| - 1] && s[|s| - 1] == '-';
      TrimRun(head, core, tail[..|tail| - 1]);
      assert TrimLeft(s[..|s| - 1]) == s[..|s| - 1];
    } else {
      assert s == core;
    }
  }

  lemma NothingToTrim(s: string)
    requires s != "" && s[0] != '-' && s[|s| - 1] != '-'
    ensures TrimRight(TrimLeft(s)) == s
  {
  }

  lemma FallbackIsAccepted()
    ensures Accepted(FALLBACK)
  {
  }

  // ---- Names ----

  function ToLabel(sessionID: string): string {
    LABEL_PREFIX + sessionID
  }

  function ParseLabel(text: string): Option<string> {
    if |text| > |LABEL_PREFIX| && text[..|LABEL_PREFIX|] == LABEL_PREFIX then Some(text[|LABEL_PREFIX|..]) else None
  }

  /** The part of a deployment ID that a name has room for. */
  function DeploymentTag(deploymentID: string): string {
    var d := Sanitized(deploymentID);
    if |d| > DEPLOYMENT_LENGTH then d[..DEPLOYMENT_LENGTH] else d
  }

  function InstanceName(sessionID: string, deploymentID: string): string {
    var text := Sanitized(ToLabel(sessionID));
    if deploymentID != "" then text + SEPARATOR + DeploymentTag(deploymentID) else text
  }

  predicate IsAt(s: string, word: string, i: int) {
    0 <= i && i + |word| <= |s| && s[i..i + |word|] == word
  }

  /** The last place of a word in a text up to a point, if any. */
  function LastIndexUpTo(s: string, word: string, i: int): (r: Option<nat>)
    ensures r.Some? ==> IsAt(s, word, r.value) && r.value <= i && forall j :: j <= i && IsAt(s, word, j) ==> j <= r.value
    ensures r.None? ==> forall j :: j <= i ==> !IsAt(s, word, j)
    decreases i + 1
  {
    if i < 0 then None else if IsAt(s, word, i) then Some(i) else LastIndexUpTo(s, word, i - 1)
  }

  function LastIndex(s: string, word: string): (r: Option<nat>)
    ensures r.Some? ==> IsAt(s, word, r.value) && forall j :: IsAt(s, word, j) ==> j <= r.value
    ensures r.None? ==> forall j :: !IsAt(s, word, j)
  {
    LastIndexUpTo(s, word, |s|)
  }

  datatype Tags = Tags(sessionID: string, deploymentID: string)

  /** The label's text up to the last separator. */
  function SessionPart(text: string): string {
    match LastIndex(text, SEPARATOR)
    case Some(i) => text[..i]
    case None => text
  }

  /** The name's text after the last separator. */
  function DeploymentPart(name: string): string {
    match LastIndex(name, SEPARATOR)
    case Some(i) => name[i + |SEPARATOR|..]
    case None => ""
  }

  /** The tags a listing shows for an instance: from metadata where there is any, else from the name.
      An instance that neither marks as ours is not listed at all. */
  function ListedTags(name: string, metaSession: string, metaDeployment: string): Option<Tags> {
    var text := ParseLabel(name);
    var sessionID := if metaSession != "" || text.None? then metaSession else SessionPart(text.value);
    var deploymentID := if metaDeployment != "" then metaDeployment else DeploymentPart(name);
    if text.None? && sessionID == "" then None else Some(Tags(sessionID, deploymentID))
  }

  /** A session ID that sanitizing does not change. */
  predicate PlainSessionID(id: string) {
    id != "" && AllAllowed(id) && id[|id| - 1] != '-'
  }

  lemma LabelUnchanged(id: string)
    requires PlainSessionID(id)
    ensures Sanitized(ToLabel(id)) == ToLabel(id)
  {
    var text := ToLabel(id);
    assert text[|text| - 1] == id[|id| - 1];
    SanitizedIsAccepted(text);
  }

  lemma TagIsShort(deploymentID: string)
    ensures var d := DeploymentTag(deploymentID); 2 <= |d| <= DEPLOYMENT_LENGTH && Alnum(d[0]) && AllAllowed(d)
  {
    SanitizedIsAccepted(deploymentID);
  }

  const DEPLOY_WORD := "deploy-"

  /** After a separator followed by a short tag, another separator starts exactly when the tag starts with
      the separator's word, and then it shares the hyphen. */
  lemma NextSeparator(head: string, tag: string, j: int)
    requires 0 < |tag| <= |SEPARATOR| && tag[0] != '-' && j > |head|
    ensures IsAt(head + SEPARATOR + tag, SEPARATOR, j) <==> j == |head| + 7 && HasPrefix(tag, DEPLOY_WORD)
  {
    var s := head + SEPARATOR + tag;
    if j == |head| + 7 {
      SharedHyphen(head, tag);
    } else if j + |SEPARATOR| <= |s| {
      assert s[j] != '-' by {
        assert s[j] == if j < |head| + |SEPARATOR| then SEPARATOR[j - |head|] else tag[0];
      }
      assert s[j..j + |SEPARATOR|][0] == s[j];
      assert SEPARATOR[0] == '-';
    }
  }

  lemma SharedHyphen(head: string, tag: string)
    ensures IsAt(head + SEPARATOR + tag, SEPARATOR, |head| + 7) <==> HasPrefix(tag, DEPLOY_WORD)
  {
    var s, j := head + SEPARATOR + tag, |head| + 7;
    assert SEPARATOR == "-" + DEPLOY_WORD;
    if |tag| >= 7 {
      assert s[j..j + 8] == "-" + tag[..7];
      assert ("-" + tag[..7])[1..] == tag[..7];
      assert SEPARATOR[1..] == DEPLOY_WORD;
    }
  }

  lemma LastSeparator(head: string, tag: string)
    requires 0 < |tag| <= |SEPARATOR| && tag[0] != '-'
    ensures LastIndex(head + SEPARATOR + tag, SEPARATOR)
            == Some(if HasPrefix(tag, DEPLOY_WORD) then |head| + 7 else |head|)
  {
    hide LastIndex;
    var s := head + SEPARATOR + tag;
    assert s[|head|..|head| + |SEPARATOR|] == SEPARATOR;
    assert IsAt(s, SEPARATOR, |head|);
    NextSeparator(head, tag, |head| + 7);
    var last := LastIndex(s, SEPARATOR).value;
    if last > |head| {
      NextSeparator(head, tag, last);
    }
  }

  /** The round trip: a plain session ID and the tag of a deployment come back from the name, exactly when
      the tag does not start with the separator's own word. Session IDs may contain the separator. */
  lemma NameRoundTrip(sessionID: string, deploymentID: string)
    requires PlainSessionID(sessionID) && deploymentID != ""
    ensures ListedTags(InstanceName(sessionID, deploymentID), "", "") == Some(Tags(sessionID, DeploymentTag(deploymentID)))
            <==> !HasPrefix(DeploymentTag(deploymentID), DEPLOY_WORD)
  {
    hide DeploymentTag, LastIndex, HasPrefix, InstanceName, ParseLabel;
    var tag := DeploymentTag(deploymentID);
    TagIsShort(deploymentID);
    NameIs(sessionID, deploymentID);
    LastSeparator(sessionID, tag);
    LastSeparator(ToLabel(sessionID), tag);
    CutBack(sessionID, tag);
    CutBack(ToLabel(sessionID), tag);
  }

  lemma NameIs(sessionID: string, deploymentID: string)
    requires PlainSessionID(sessionID) && deploymentID != ""
    ensures var tag, name := DeploymentTag(deploymentID), InstanceName(sessionID, deploymentID);
            && name == ToLabel(sessionID) + SEPARATOR + tag
            && ParseLabel(name) == Some(sessionID + SEPARATOR + tag)
  {
    hide DeploymentTag, Sanitized;
    LabelUnchanged(sessionID);
    assert InstanceName(sessionID, deploymentID) == LABEL_PREFIX + (sessionID + SEPARATOR + DeploymentTag(deploymentID));
  }

  lemma CutBack(head: string, tag: string)
    ensures (head + SEPARATOR + tag)[..|head|] == head
    ensures (head + SEPARATOR + tag)[|head| + |SEPARATOR|..] == tag
  {
  }

  /** And then the listed instance is recognized as the deployment's, if the deployment ID is itself plain. */
  lemma ListedInstanceIsOurs(sessionID: string, deploymentID: string)
    requires PlainSessionID(sessionID) && Accepted(deploymentID) && !HasPrefix(deploymentID, DEPLOY_WORD)
    ensures var tags := ListedTags(InstanceName(sessionID, deploymentID), "", "");
            && tags == Some(Tags(sessionID, DeploymentTag(deploymentID)))
            && HasPrefix(deploymentID, tags.value.deploymentID)
            && IsOurs(tags.value.deploymentID, deploymentID)
  {
    hide ListedTags, InstanceName, DeploymentTag, PlainSessionID, Accepted, HasPrefix;
    TagIsPrefix(deploymentID);
    NameRoundTrip(sessionID, deploymentID);
  }

  /** The tag of an acceptable deployment ID is where it starts, so each is recognized by the other. */
  lemma TagIsPrefix(deploymentID: string)
    requires Accepted(deploymentID)
    ensures var tag := DeploymentTag(deploymentID);
            && HasPrefix(deploymentID, tag) && IsOurs(tag, deploymentID) && deploymentID != ""
            && (HasPrefix(tag, DEPLOY_WORD) ==> HasPrefix(deploymentID, DEPLOY_WORD))
  {
    hide Sanitized, AllAllowed;
    SanitizedIsAccepted(deploymentID);
    var tag := DeploymentTag(deploymentID);
    assert |tag| >= 7 ==> tag[..7] == deploymentID[..7];
  }

  /** Without a deployment ID the session ID comes back exactly when it does not contain the separator, and
      the deployment reads as empty exactly when the whole name does not. */
  lemma NameWithoutDeployment(sessionID: string)
    requires PlainSessionID(sessionID)
    ensures var tags := ListedTags(InstanceName(sessionID, ""), "", "");
            && tags.Some?
            && (tags.value.sessionID == sessionID <==> forall j :: !IsAt(sessionID, SEPARATOR, j))
            && (tags.value.deploymentID == "" <==> forall j :: !IsAt(ToLabel(sessionID), SEPARATOR, j))
  {
    hide Sanitized, InstanceName, ParseLabel, SessionPart, DeploymentPart;
    LabelUnchanged(sessionID);
    PlainName(sessionID);
    WholeSession(sessionID);
    NoDeployment(ToLabel(sessionID));
  }

  lemma PlainName(sessionID: string)
    requires PlainSessionID(sessionID) && Sanitized(ToLabel(sessionID)) == ToLabel(sessionID)
    ensures InstanceName(sessionID, "") == ToLabel(sessionID) && ParseLabel(ToLabel(sessionID)) == Some(sessionID)
    ensures ToLabel(sessionID) != "" && ToLabel(sessionID)[|ToLabel(sessionID)| - 1] != '-'
  {
    hide Sanitized;
  }

  lemma WholeSession(text: string)
    ensures SessionPart(text) == text <==> forall j :: !IsAt(text, SEPARATOR, j)
  {
    hide LastIndex;
    match LastIndex(text, SEPARATOR)
    case None =>
    case Some(i) =>
      assert IsAt(text, SEPARATOR, i) && |text[..i]| < |text|;
  }

  /** A name that does not end in a hyphen cannot end in the separator. */
  lemma NoDeployment(name: string)
    requires name != "" && name[|name| - 1] != '-'
    ensures DeploymentPart(name) == "" <==> forall j :: !IsAt(name, SEPARATOR, j)
  {
    hide LastIndex;
    match LastIndex(name, SEPARATOR)
    case None =>
    case Some(i) =>
      assert IsAt(name, SEPARATOR, i);
      assert name[i..i + |SEPARATOR|][7] == name[i + 7] == '-';
      assert i + 7 != |name| - 1;
  }

  const MAX_NAME_LENGTH := 64

  /** The provider accepts the name exactly when session ID and tag together have at most 48 characters and the
      tag was not cut right after a hyphen. The tag of a deployment ID with too few usable characters always is. */
  lemma NameAccepted(sessionID: string, deploymentID: string)
    requires PlainSessionID(sessionID) && deploymentID != ""
    ensures var d := Sanitized(deploymentID);
            var name := InstanceName(sessionID, deploymentID);
            Accepted(name) && |name| <= MAX_NAME_LENGTH
            <==> |sessionID| + |DeploymentTag(deploymentID)| <= 48 && (|d| <= DEPLOYMENT_LENGTH || d[DEPLOYMENT_LENGTH - 1] != '-')
    ensures Sanitized(deploymentID) == FALLBACK ==> !Accepted(InstanceName(sessionID, deploymentID))
  {
    hide Sanitized, InstanceName, ParseLabel, DeploymentTag, ToLabel, AllAllowed, Accepted, PlainSessionID;
    NameIs(sessionID, deploymentID);
    LabelUnchanged(sessionID);
    SanitizedIsAccepted(ToLabel(sessionID));
    TagIsShort(deploymentID);
    TagEnds(deploymentID);
    JoinedAccepted(ToLabel(sessionID), DeploymentTag(deploymentID));
    LabelLength(sessionID);
  }

  lemma LabelLength(sessionID: string)
    ensures |ToLabel(sessionID)| == 8 + |sessionID| && |SEPARATOR| == 8
  {
  }

  /** How the tag ends. */
  lemma TagEnds(deploymentID: string)
    ensures var d, tag := Sanitized(deploymentID), DeploymentTag(deploymentID);
            && tag != "" && (Alnum(tag[|tag| - 1]) <==> |d| <= DEPLOYMENT_LENGTH || d[DEPLOYMENT_LENGTH - 1] != '-')
            && (d == FALLBACK ==> |d| > DEPLOYMENT_LENGTH && d[DEPLOYMENT_LENGTH - 1] == '-')
  {
    hide Sanitized;
    SanitizedIsAccepted(deploymentID);
    var d := Sanitized(deploymentID);
    assert |d| > DEPLOYMENT_LENGTH ==> Allowed(d[DEPLOYMENT_LENGTH - 1]);
  }

  lemma JoinedAccepted(head: string, tag: string)
    requires Accepted(head) && tag != "" && AllAllowed(tag)
    ensures Accepted(head + SEPARATOR + tag) <==> Alnum(tag[|tag| - 1])
  {
    var name := head + SEPARATOR + tag;
    assert name[0] == head[0] && name[|name| - 1] == tag[|tag| - 1];
    assert AllAllowed(SEPARATOR);
    assert forall i :: 0 <= i < |name| ==>
      name[i] == if i < |head| then head[i] else if i < |head| + |SEPARATOR| then SEPARATOR[i - |head|] else tag[i - |head| - |SEPARATOR|];
  }
}
