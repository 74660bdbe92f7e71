/**
 * The pure helpers of the SageMaker Model Monitor service: the analyzer image URI,
 * the URIs a data-quality baseline job writes, and the optional baseline of a schedule.
 */
module SageMakerMonitoring {
  import opened Values
  import opened JavaText
  import SageMakerImages

  /** Account of the analyzer image in us-east-1 and in every region not listed. */
  const MONITOR_DEFAULT_ACCOUNT: string := "156813124566"

  /** Path of the Model Monitor analyzer image after its domain (the image carries no tag). */
  const ANALYZER_PATH: string := "/sagemaker-model-monitor-analyzer"

  /** The analyzer image account of each region the switch lists. */
  const MonitorAccounts: map<string, string> := map[
    "us-east-1" := "156813124566",
    "us-east-2" := "777275614652",
    "us-west-1" := "890145073186",
    "us-west-2" := "159807026194",
    "eu-west-1" := "468650794304",
    "eu-west-2" := "749857270468",
    "eu-central-1" := "048819808253",
    "ap-northeast-1" := "574779866223",
    "ap-northeast-2" := "709848358524",
    "ap-southeast-1" := "245545462676",
    "ap-southeast-2" := "563025443158",
    "ap-south-1" := "126357580389",
    "cn-north-1" := "453000072557",
    "cn-northwest-1" := "453252182341"
  ]

  /** The switch lists the same fourteen regions as the image service's account tables. */
  lemma MonitorAccountsCoverListedRegions()
    ensures MonitorAccounts.Keys == SageMakerImages.ListedRegions
  {
  }

  /** `getMonitoringImageAccountId`: one fixed account per listed region, us-east-1's otherwise. */
  function MonitoringAccountId(region: string): (r: string)
    ensures region !in SageMakerImages.ListedRegions ==> r == MONITOR_DEFAULT_ACCOUNT
    ensures region == "us-east-1" ==> r == MONITOR_DEFAULT_ACCOUNT
    ensures SageMakerImages.IsAccountId(r)
  {
    MonitorAccountsFirstHalf();
    MonitorAccountsSecondHalf();
    match region
    case "us-east-1" => "156813124566"
    case "us-east-2" => "777275614652"
    case "us-west-1" => "890145073186"
    case "us-west-2" => "159807026194"
    case "eu-west-1" => "468650794304"
    case "eu-west-2" => "749857270468"
    case "eu-central-1" => "048819808253"
    case "ap-northeast-1" => "574779866223"
    case "ap-northeast-2" => "709848358524"
    case "ap-southeast-1" => "245545462676"
    case "ap-southeast-2" => "563025443158"
    case "ap-south-1" => "126357580389"
    case "cn-north-1" => "453000072557"
    case "cn-northwest-1" => "453252182341"
    case _ => MONITOR_DEFAULT_ACCOUNT
  }

  /** The first seven accounts of the switch are account IDs. */
  lemma MonitorAccountsFirstHalf()
    ensures SageMakerImages.IsAccountId("156813124566") && SageMakerImages.IsAccountId("777275614652")
    ensures SageMakerImages.IsAccountId("890145073186") && SageMakerImages.IsAccountId("159807026194")
    ensures SageMakerImages.IsAccountId("468650794304") && SageMakerImages.IsAccountId("749857270468")
    ensures SageMakerImages.IsAccountId("048819808253")
  {
  }

  /** The other seven accounts of the switch are account IDs. */
  lemma MonitorAccountsSecondHalf()
    ensures SageMakerImages.IsAccountId("574779866223") && SageMakerImages.IsAccountId("709848358524")
    ensures SageMakerImages.IsAccountId("245545462676") && SageMakerImages.IsAccountId("563025443158")
    ensures SageMakerImages.IsAccountId("126357580389") && SageMakerImages.IsAccountId("453000072557")
    ensures SageMakerImages.IsAccountId("453252182341")
  {
  }

  /** The switch agrees with the table: a listed region gets its own account, any other the default. */
  lemma MonitoringAccountTable(region: string)
    ensures MonitoringAccountId(region)
         == if region in MonitorAccounts then MonitorAccounts[region] else MONITOR_DEFAULT_ACCOUNT
  {
  }

  /**
   * `getDefaultMonitoringImage`: account "." domain "/sagemaker-model-monitor-analyzer",
   * with the domain chosen by its own "cn-" test, which agrees with the image service's.
   */
  function MonitoringImage(region: string): (r: string)
    ensures r == MonitoringAccountId(region) + "." + SageMakerImages.EcrDomain(region) + ANALYZER_PATH
    ensures EndsWith(r, ANALYZER_PATH)
  {
    var accountId := MonitoringAccountId(region);
    var domain := if StartsWith(region, "cn-") then "dkr.ecr." + region + ".amazonaws.com.cn"
                  else "dkr.ecr." + region + ".amazonaws.com";
    assert domain == SageMakerImages.EcrDomain(region);
    var prefix := accountId + "." + domain;
    var r := prefix + ANALYZER_PATH;
    assert r[|prefix|..] == ANALYZER_PATH;
    r
  }

  /** The account can be read back from the analyzer image URI: it is everything before the first '.'. */
  lemma MonitoringImageAccount(region: string)
    ensures SplitAtFirst(MonitoringImage(region), '.')
         == Some((MonitoringAccountId(region), SageMakerImages.EcrDomain(region) + ANALYZER_PATH))
  {
    var account := MonitoringAccountId(region);
    var rest := SageMakerImages.EcrDomain(region) + ANALYZER_PATH;
    assert MonitoringImage(region) == account + ['.'] + rest;
    assert '.' !in account;
    SplitAtFirstOf(account, '.', rest);
  }

  /** The two files a data-quality baseline job writes under its output location. */
  datatype BaselineOutputs = BaselineOutputs(statisticsUri: string, constraintsUri: string)

  /**
   * `createDataQualityBaseline`: statistics.json and constraints.json under the output
   * URI; a null output URI is concatenated as the text "null".
   */
  function DataQualityBaselineOutputs(outputS3Uri: Option<string>): (r: BaselineOutputs)
    ensures StartsWith(r.statisticsUri, NullText(outputS3Uri) + "/")
    ensures StartsWith(r.constraintsUri, NullText(outputS3Uri) + "/")
    ensures EndsWith(r.statisticsUri, "/statistics.json")
    ensures EndsWith(r.constraintsUri, "/constraints.json")
    ensures |r.statisticsUri| == |NullText(outputS3Uri)| + |"/statistics.json"|
    ensures |r.constraintsUri| == |NullText(outputS3Uri)| + |"/constraints.json"|
    ensures r.statisticsUri != r.constraintsUri
  {
    var base := NullText(outputS3Uri);
    var statistics := base + "/statistics.json";
    var constraints := base + "/constraints.json";
    assert statistics[|base| + 1] == 's' && constraints[|base| + 1] == 'c';
    BaselineOutputs(statistics, constraints)
  }

  /** The baseline of a monitoring schedule: each resource is optional. */
  datatype BaselineConfig = BaselineConfig(constraintsUri: Option<string>, statisticsUri: Option<string>)

  /**
   * The baseline block of `createMonitoringSchedule`: a resource is set exactly when
   * the corresponding URI in the configuration is non-null, and then carries that URI.
   */
  function MonitoringBaseline(baselineConstraintsUri: Option<string>, baselineStatisticsUri: Option<string>): (r: BaselineConfig)
    ensures r.constraintsUri.Some? <==> baselineConstraintsUri.Some?
    ensures r.statisticsUri.Some? <==> baselineStatisticsUri.Some?
    ensures r.constraintsUri.Some? ==> r.constraintsUri.value == baselineConstraintsUri.value
    ensures r.statisticsUri.Some? ==> r.statisticsUri.value == baselineStatisticsUri.value
  {
    var empty := BaselineConfig(None, None);
    var withConstraints := if baselineConstraintsUri.Some?
                           then empty.(constraintsUri := Some(baselineConstraintsUri.value))
                           else empty;
    if baselineStatisticsUri.Some?
    then withConstraints.(statisticsUri := Some(baselineStatisticsUri.value))
    else withConstraints
  }
}
