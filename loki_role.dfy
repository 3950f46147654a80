/**
 * pkg/resource/loki-role/templates.go and the text half of iam.go: the IAM
 * policy documents of the Loki role, as templates whose "@NAME@" placeholders
 * are filled with `strings.ReplaceAll`.
 */
module LokiRoleTemplates {
  import Clusters
  import Strings

  /** The text of a placeholder named `word`: "@" + word + "@". */
  function Mark(word: string): string
  {
    "@" + word + "@"
  }

  const InstallationWord := "INSTALLATION"
  const AccountIDWord := "ACCOUNT_ID"
  const CloudDomainWord := "CLOUD_DOMAIN"
  const InstallationMark := Mark(InstallationWord)
  const AccountIDMark := Mark(AccountIDWord)
  const CloudDomainMark := Mark(CloudDomainWord)

  // Lines shared by both templates: the document's opening up to the statement's effect, and its closing.
  const EffectAllow := "\t\t\t\"Effect\": \"Allow\",\n"
  const Opening := "{\n" + "\t\"Version\": \"2012-10-17\",\n" + "\t\"Statement\": [\n" + "\t\t{\n" + EffectAllow
  const Closing := "\t\t}\n" + "\t]\n" + "}"

  // The placeholder-free pieces of the role policy, around its two bucket ARNs.
  const BucketArn := "\t\t\t\"arn:aws:s3:::"
  const RolePolicyHead := Opening + "\t\t\t\"Action\": [\n" + "\t\t\t\t\"s3:ListBucket\",\n"
    + "\t\t\t\t\"s3:PutObject\",\n" + "\t\t\t\t\"s3:GetObject\",\n" + "\t\t\t\t\"s3:DeleteObject\"\n"
    + "\t\t\t],\n" + "\t\t\t\"Resource\": [\n" + BucketArn
  const RolePolicyMiddle := "-g8s-loki\",\n" + BucketArn
  const RolePolicyTail := "-g8s-loki/*\"\n" + "\t\t\t]\n" + "\t\t},\n" + "\t\t{\n" + EffectAllow
    + "\t\t\t\"Action\": [\n" + "\t\t\t\"s3:GetAccessPoint\",\n" + "\t\t\t\"s3:GetAccountPublicAccessBlock\",\n"
    + "\t\t\t\"s3:ListAccessPoints\"\n" + "\t\t\t],\n" + "\t\t\t\"Resource\": \"*\"\n" + Closing

  /** Text `installation` in both bucket ARNs of a policy made of `head`, `middle` and `tail`. */
  function TwoSlots(head: string, installation: string, middle: string, tail: string): string
  {
    head + (installation + (middle + (installation + tail)))
  }

  /** The role policy with `installation` in both bucket ARNs. */
  function RolePolicyWith(installation: string): string
  {
    TwoSlots(RolePolicyHead, installation, RolePolicyMiddle, RolePolicyTail)
  }

  /** `rolePolicy`: the installation placeholder twice, in the two S3 ARNs, and nowhere else. */
  const RolePolicy := RolePolicyWith(InstallationMark)

  /** The placeholder-free pieces of the trust policy. */
  datatype TrustPieces = TrustPieces(head: string, provider: string, condition: string, subjectOpen: string,
                                     subject: string, close: string)

  /** Text with `account` in the identity provider's ARN, and `installation` and `cloudDomain` naming the provider twice. */
  function TrustText(p: TrustPieces, account: string, installation: string, cloudDomain: string): string
  {
    p.head + (account + (p.provider + (installation + ("." + (cloudDomain + (p.condition
      + (installation + ("." + (cloudDomain + (p.subjectOpen + (p.subject + p.close)))))))))))
  }

  const TrustedSubject := "system:serviceaccount:loki:loki"
  const Trust := TrustPieces(
    Opening + "\t\t\t\"Principal\": {\n" + "\t\t\t\t\"Federated\": \"arn:aws:iam::",
    ":oidc-provider/irsa.",
    "\"\n" + "\t\t\t},\n" + "\t\t\t\"Action\": \"sts:AssumeRoleWithWebIdentity\",\n" + "\t\t\t\"Condition\": {\n"
      + "\t\t\t\t\"StringEquals\": {\n" + "\t\t\t\t\t\"irsa.",
    ":sub\": \"",
    TrustedSubject,
    "\"\n" + "\t\t\t\t}\n" + "\t\t\t}\n" + Closing)

  /** The trust policy with the given account, installation and cloud domain in its slots. */
  function TrustPolicyWith(account: string, installation: string, cloudDomain: string): string
  {
    TrustText(Trust, account, installation, cloudDomain)
  }

  /** `trustIdentityPolicy`: the account once, installation and cloud domain twice each. */
  const TrustIdentityPolicy := TrustPolicyWith(AccountIDMark, InstallationMark, CloudDomainMark)

  /** `getRoleName`: "giantswarm-<installation>-loki". */
  function RoleName(lc: Clusters.LoggedCluster): (r: string)
    ensures r == "giantswarm-" + Clusters.InstallationName(lc) + "-loki"
  {
    "giantswarm-" + Clusters.InstallationName(lc) + "-loki"
  }

  /** Installations with different names get different roles. */
  lemma RoleNameSeparatesInstallations(a: Clusters.LoggedCluster, b: Clusters.LoggedCluster)
    requires Clusters.InstallationName(a) != Clusters.InstallationName(b)
    ensures RoleName(a) != RoleName(b)
  {
    var na, nb := Clusters.InstallationName(a), Clusters.InstallationName(b);
    assert RoleName(a)[11..|RoleName(a)| - 5] == na;
    assert RoleName(b)[11..|RoleName(b)| - 5] == nb;
  }

  /** `templateRolePolicy`: every installation placeholder replaced by the installation name. */
  function TemplateRolePolicy(lc: Clusters.LoggedCluster): string
  {
    Strings.ReplaceAll(RolePolicy, InstallationMark, Clusters.InstallationName(lc))
  }

  /**
   * `templateTrustPolicy`: the cloud domain is substituted first, then the
   * installation, then the account id.
   */
  function TemplateTrustPolicy(lc: Clusters.LoggedCluster, accountId: string, cloudDomain: string): string
  {
    Strings.ReplaceAll(
      Strings.ReplaceAll(
        Strings.ReplaceAll(TrustIdentityPolicy, CloudDomainMark, cloudDomain),
        InstallationMark, Clusters.InstallationName(lc)),
      AccountIDMark, accountId)
  }

  // No fixed piece of either template holds an "@", so the placeholders are
  // the only places a substitution can hit. Each lemma checks a few lines.

  lemma OpeningClean()
    ensures '@' !in Opening
  {
    assert '@' !in "\t\"Version\": \"2012-10-17\",\n";
    assert '@' !in EffectAllow;
  }

  lemma ClosingClean()
    ensures '@' !in Closing && '@' !in BucketArn
  {
  }

  lemma RoleActionsClean()
    ensures '@' !in "\t\t\t\t\"s3:ListBucket\",\n" + "\t\t\t\t\"s3:PutObject\",\n"
    ensures '@' !in "\t\t\t\t\"s3:GetObject\",\n" + "\t\t\t\t\"s3:DeleteObject\"\n"
  {
    assert '@' !in "\t\t\t\t\"s3:ListBucket\",\n";
    assert '@' !in "\t\t\t\t\"s3:GetObject\",\n";
  }

  lemma RolePolicyHeadClean()
    ensures '@' !in RolePolicyHead
  {
    OpeningClean();
    ClosingClean();
    RoleActionsClean();
    assert '@' !in "\t\t\t\"Action\": [\n";
    assert '@' !in "\t\t\t\"Resource\": [\n";
  }

  lemma AccessPointActionsClean()
    ensures '@' !in "\t\t\t\"s3:GetAccessPoint\",\n"
    ensures '@' !in "\t\t\t\"s3:GetAccountPublicAccessBlock\",\n"
    ensures '@' !in "\t\t\t\"s3:ListAccessPoints\"\n"
  {
    assert '@' !in "\t\t\t\"s3:GetAccountPublic";
  }

  lemma RolePolicyTailClean()
    ensures '@' !in RolePolicyMiddle && '@' !in RolePolicyTail
  {
    ClosingClean();
    AccessPointActionsClean();
    assert '@' !in EffectAllow;
    assert '@' !in "-g8s-loki/*\"\n" + "\t\t\t]\n" + "\t\t},\n";
    assert '@' !in "\t\t\t\"Action\": [\n";
    assert '@' !in "\t\t\t\"Resource\": \"*\"\n";
  }

  /** The trust policy's fixed pieces hold no "@", and the provider's name starts right after the account. */
  predicate Clean(p: TrustPieces)
  {
    '@' !in p.head && '@' !in p.provider && '@' !in p.condition && '@' !in p.subjectOpen
    && '@' !in p.subject && '@' !in p.close && |p.provider| > 0 && p.provider[0] == ':'
  }

  lemma TrustHeadClean()
    ensures '@' !in Trust.head && '@' !in Trust.provider
  {
    OpeningClean();
    assert '@' !in "\t\t\t\"Principal\": {\n";
    assert '@' !in "\t\t\t\t\"Federated\": \"arn:aws:iam::";
  }

  lemma TrustActionClean()
    ensures '@' !in "\t\t\t\"Action\": \"sts:AssumeRoleWithWebIdentity\",\n"
  {
    assert '@' !in "\t\t\t\"Action\": \"sts:Assume";
  }

  lemma TrustConditionClean()
    ensures '@' !in Trust.condition
  {
    TrustActionClean();
    assert '@' !in "\"\n" + "\t\t\t},\n";
    assert '@' !in "\t\t\t\"Condition\": {\n";
    assert '@' !in "\t\t\t\t\"StringEquals\": {\n";
    assert '@' !in "\t\t\t\t\t\"irsa.";
  }

  lemma TrustCloseClean()
    ensures '@' !in Trust.subjectOpen && '@' !in Trust.subject && '@' !in Trust.close
  {
    ClosingClean();
    assert '@' !in TrustedSubject;
    assert '@' !in "\"\n" + "\t\t\t\t}\n";
  }

  lemma TrustClean()
    ensures Clean(Trust)
  {
    TrustHeadClean();
    TrustConditionClean();
    TrustCloseClean();
  }

  /** A placeholder name: not empty, no "@", and starting with a capital letter. */
  predicate MarkWord(w: string)
  {
    |w| > 0 && '@' !in w && 'A' <= w[0] <= 'Z'
  }

  /** The three placeholder names start with different letters. */
  lemma MarkWords()
    ensures MarkWord(AccountIDWord) && MarkWord(InstallationWord) && MarkWord(CloudDomainWord)
    ensures AccountIDWord[0] != InstallationWord[0] && AccountIDWord[0] != CloudDomainWord[0]
    ensures InstallationWord[0] != CloudDomainWord[0]
  {
  }

  /** Filling a placeholder that appears twice, between pieces that hold no "@". */
  lemma FillTwoSlots(head: string, middle: string, tail: string, pat: string, rep: string)
    requires |pat| > 0 && pat[0] == '@' && '@' !in head && '@' !in middle && '@' !in tail
    ensures Strings.ReplaceAll(TwoSlots(head, pat, middle, tail), pat, rep) == TwoSlots(head, rep, middle, tail)
  {
    Strings.ReplaceAllSkipsClean(head, pat + (middle + (pat + tail)), pat, rep);
    Strings.ReplaceAllAtFront(middle + (pat + tail), pat, rep);
    Strings.ReplaceAllSkipsClean(middle, pat + tail, pat, rep);
    Strings.ReplaceAllAtFront(tail, pat, rep);
    Strings.ReplaceAllClean(tail, pat, rep);
  }

  /** The filled role policy names the installation's bucket in both ARNs, whatever the installation name. */
  lemma RolePolicyFilled(lc: Clusters.LoggedCluster)
    ensures TemplateRolePolicy(lc) == RolePolicyWith(Clusters.InstallationName(lc))
  {
    RolePolicyHeadClean();
    RolePolicyTailClean();
    FillTwoSlots(RolePolicyHead, RolePolicyMiddle, RolePolicyTail, InstallationMark, Clusters.InstallationName(lc));
  }

  /** First step of `templateTrustPolicy`: both cloud-domain placeholders are filled, the others kept. */
  lemma FillCloudDomain(p: TrustPieces, wa: string, wi: string, wc: string, cloudDomain: string)
    requires Clean(p) && MarkWord(wa) && MarkWord(wi) && MarkWord(wc) && wc[0] != wa[0] && wc[0] != wi[0]
    ensures Strings.ReplaceAll(TrustText(p, Mark(wa), Mark(wi), Mark(wc)), Mark(wc), cloudDomain)
            == TrustText(p, Mark(wa), Mark(wi), cloudDomain)
  {
    var m, c := Mark(wc), cloudDomain;
    var tail := p.subjectOpen + (p.subject + p.close);
    var second := "." + (m + tail);
    var first := "." + (m + (p.condition + (Mark(wi) + second)));
    Strings.ReplaceAllSkipsClean(p.head, Mark(wa) + (p.provider + (Mark(wi) + first)), m, c);
    Strings.ReplaceAllSkipsMark(wa, p.provider + (Mark(wi) + first), m, c);
    Strings.ReplaceAllSkipsClean(p.provider, Mark(wi) + first, m, c);
    Strings.ReplaceAllSkipsMark(wi, first, m, c);
    Strings.ReplaceAllSkipsClean(".", m + (p.condition + (Mark(wi) + second)), m, c);
    Strings.ReplaceAllAtFront(p.condition + (Mark(wi) + second), m, c);
    Strings.ReplaceAllSkipsClean(p.condition, Mark(wi) + second, m, c);
    Strings.ReplaceAllSkipsMark(wi, second, m, c);
    Strings.ReplaceAllSkipsClean(".", m + tail, m, c);
    Strings.ReplaceAllAtFront(tail, m, c);
    Strings.ReplaceAllClean(tail, m, c);
  }

  /** Second step: both installation placeholders are filled; a cloud domain without "@" is left alone. */
  lemma FillInstallation(p: TrustPieces, wa: string, wi: string, installation: string, cloudDomain: string)
    requires Clean(p) && MarkWord(wa) && MarkWord(wi) && wa[0] != wi[0] && '@' !in cloudDomain
    ensures Strings.ReplaceAll(TrustText(p, Mark(wa), Mark(wi), cloudDomain), Mark(wi), installation)
            == TrustText(p, Mark(wa), installation, cloudDomain)
  {
    var m, i, c := Mark(wi), installation, cloudDomain;
    var tail := p.subjectOpen + (p.subject + p.close);
    var second := m + ("." + (c + tail));
    var first := m + ("." + (c + (p.condition + second)));
    Strings.ReplaceAllSkipsClean(p.head, Mark(wa) + (p.provider + first), m, i);
    Strings.ReplaceAllSkipsMark(wa, p.provider + first, m, i);
    Strings.ReplaceAllSkipsClean(p.provider, first, m, i);
    Strings.ReplaceAllAtFront("." + (c + (p.condition + second)), m, i);
    Strings.ReplaceAllSkipsClean(".", c + (p.condition + second), m, i);
    Strings.ReplaceAllSkipsClean(c, p.condition + second, m, i);
    Strings.ReplaceAllSkipsClean(p.condition, second, m, i);
    Strings.ReplaceAllAtFront("." + (c + tail), m, i);
    Strings.ReplaceAllClean("." + (c + tail), m, i);
  }

  /** Last step: the account placeholder is filled; values without "@" are left alone. */
  lemma FillAccount(p: TrustPieces, wa: string, account: string, installation: string, cloudDomain: string)
    requires Clean(p) && MarkWord(wa) && '@' !in installation && '@' !in cloudDomain
    ensures Strings.ReplaceAll(TrustText(p, Mark(wa), installation, cloudDomain), Mark(wa), account)
            == TrustText(p, account, installation, cloudDomain)
  {
    var m, i, c := Mark(wa), installation, cloudDomain;
    var rest := p.provider + (i + ("." + (c + (p.condition + (i + ("." + (c + (p.subjectOpen + (p.subject + p.close)))))))));
    Strings.ReplaceAllSkipsClean(p.head, m + rest, m, account);
    Strings.ReplaceAllAtFront(rest, m, account);
    Strings.ReplaceAllClean(rest, m, account);
  }

  /**
   * Filling the trust policy puts the account, installation and cloud domain
   * in every slot, provided the installation and cloud domain hold no "@"
   * that a later substitution step could mistake for a placeholder.
   */
  lemma TrustPolicyFilled(lc: Clusters.LoggedCluster, accountId: string, cloudDomain: string)
    requires '@' !in Clusters.InstallationName(lc) && '@' !in cloudDomain
    ensures TemplateTrustPolicy(lc, accountId, cloudDomain)
            == TrustPolicyWith(accountId, Clusters.InstallationName(lc), cloudDomain)
  {
    var installation := Clusters.InstallationName(lc);
    TrustClean();
    MarkWords();
    FillCloudDomain(Trust, AccountIDWord, InstallationWord, CloudDomainWord, cloudDomain);
    FillInstallation(Trust, AccountIDWord, InstallationWord, installation, cloudDomain);
    FillAccount(Trust, AccountIDWord, accountId, installation, cloudDomain);
  }

  /** The subject a policy made of pieces `p` lets assume the role is `p.subject`, whatever fills the slots. */
  lemma {:induction false} SubjectSurvivesFilling(p: TrustPieces, account: string, installation: string, cloudDomain: string)
    ensures Strings.Contains(TrustText(p, account, installation, cloudDomain), p.subjectOpen + p.subject)
  {
    var before := p.head + (account + (p.provider + (installation + ("." + (cloudDomain + (p.condition
      + (installation + ("." + cloudDomain))))))));
    assert TrustText(p, account, installation, cloudDomain) == before + (p.subjectOpen + p.subject) + p.close;
    Strings.ContainsMiddle(before, p.subjectOpen + p.subject, p.close);
  }

  /** Whatever is substituted, the subject allowed to assume the role is Loki's service account. */
  lemma TrustedSubjectIsLoki(account: string, installation: string, cloudDomain: string)
    ensures Strings.Contains(TrustPolicyWith(account, installation, cloudDomain), ":sub\": \"" + TrustedSubject)
  {
    SubjectSurvivesFilling(Trust, account, installation, cloudDomain);
  }
}
