/**
 * The settings of a SageMaker model-monitoring schedule and their builder.
 *
 * Setters, including the schedule helpers, overwrite fields of the one configuration
 * the builder owns; `Build` requires a schedule name and an endpoint name.
 */
module MonitoringConfigModel {
  import opened Values
  import opened JavaText

  /** What a schedule monitors. */
  datatype MonitoringType = DataQuality | ModelQuality | ModelBias | ModelExplainability

  /** The value of every field of a monitoring configuration. */
  datatype MonitoringSettings = MonitoringSettings(
    monitoringScheduleName: Option<string>,
    endpointName: Option<string>,
    monitoringType: Option<MonitoringType>,
    roleArn: Option<string>,
    instanceType: Option<string>,
    instanceCount: int32,
    volumeSizeGB: int32,
    baselineDatasetUri: Option<string>,
    baselineConstraintsUri: Option<string>,
    baselineStatisticsUri: Option<string>,
    s3OutputPath: Option<string>,
    scheduleExpression: Option<string>,
    subnetId: Option<string>,
    securityGroupId: Option<string>)

  /** The default schedule, which is also what `hourlySchedule()` sets. */
  const HOURLY_SCHEDULE: string := "cron(0 * ? * * *)"

  const SCHEDULE_NAME_REQUIRED: string := "monitoringScheduleName 不能为空"
  const ENDPOINT_NAME_REQUIRED: string := "endpointName 不能为空"

  const DAILY_PREFIX: string := "cron(0 "
  const DAILY_SUFFIX: string := " ? * * *)"

  /**
   * `String.format("cron(0 %d ? * * *)", hour)`: the hour is written in decimal and not
   * range-checked, and the text between the fixed parts reads back as the same hour.
   */
  function DailySchedule(hour: int32): (r: string)
    ensures StartsWith(r, DAILY_PREFIX) && EndsWith(r, DAILY_SUFFIX)
    ensures |r| >= |DAILY_PREFIX| + |DAILY_SUFFIX|
    ensures ParseInt(r[|DAILY_PREFIX|..|r| - |DAILY_SUFFIX|]) == Some(hour as int)
  {
    var digits := IntToString(hour as int);
    var r := DAILY_PREFIX + digits + DAILY_SUFFIX;
    assert r[|DAILY_PREFIX|..|r| - |DAILY_SUFFIX|] == digits;
    assert r[..|DAILY_PREFIX|] == DAILY_PREFIX;
    assert r[|r| - |DAILY_SUFFIX|..] == DAILY_SUFFIX;
    ParseIntToString(hour as int);
    r
  }

  /** Different hours give different daily schedules. */
  lemma DailyScheduleInjective(h1: int32, h2: int32)
    requires DailySchedule(h1) == DailySchedule(h2)
    ensures h1 == h2
  {
    var r := DailySchedule(h1);
    assert ParseInt(r[|DAILY_PREFIX|..|r| - |DAILY_SUFFIX|]) == Some(h1 as int);
    assert ParseInt(r[|DAILY_PREFIX|..|r| - |DAILY_SUFFIX|]) == Some(h2 as int);
  }

  /** No daily schedule is the hourly one. */
  lemma DailyIsNotHourly(hour: int32)
    ensures DailySchedule(hour) != HOURLY_SCHEDULE
  {
  }

  /**
   * What `build()` decides: the settings unchanged when both the schedule name and the
   * endpoint name are non-null (empty ones are accepted; role and output path are not
   * checked); otherwise the error for the first one missing.
   */
  function ValidateSettings(s: MonitoringSettings): (r: Result<MonitoringSettings, string>)
    ensures r.Ok? <==> s.monitoringScheduleName.Some? && s.endpointName.Some?
    ensures r.Ok? ==> r.value == s
    ensures s.monitoringScheduleName.None? ==> r == Err(SCHEDULE_NAME_REQUIRED)
    ensures s.monitoringScheduleName.Some? && s.endpointName.None? ==> r == Err(ENDPOINT_NAME_REQUIRED)
  {
    if s.monitoringScheduleName.None? then Err(SCHEDULE_NAME_REQUIRED)
    else if s.endpointName.None? then Err(ENDPOINT_NAME_REQUIRED)
    else Ok(s)
  }

  /** The monitoring configuration object the builder fills in. */
  class MonitoringConfig {
    var monitoringScheduleName: Option<string>
    var endpointName: Option<string>
    var monitoringType: Option<MonitoringType>
    var roleArn: Option<string>
    var instanceType: Option<string>
    var instanceCount: int32
    var volumeSizeGB: int32
    var baselineDatasetUri: Option<string>
    var baselineConstraintsUri: Option<string>
    var baselineStatisticsUri: Option<string>
    var s3OutputPath: Option<string>
    var scheduleExpression: Option<string>
    var subnetId: Option<string>
    var securityGroupId: Option<string>

    /** The current value of every field. */
    function Snapshot(): MonitoringSettings
      reads this
    {
      MonitoringSettings(monitoringScheduleName, endpointName, monitoringType, roleArn, instanceType,
                         instanceCount, volumeSizeGB, baselineDatasetUri, baselineConstraintsUri,
                         baselineStatisticsUri, s3OutputPath, scheduleExpression, subnetId, securityGroupId)
    }

    /** The defaults of a fresh configuration: data quality, one ml.m5.xlarge, 20 GB, hourly. */
    constructor ()
      ensures monitoringScheduleName.None? && endpointName.None? && roleArn.None?
      ensures monitoringType == Some(DataQuality)
      ensures instanceType == Some("ml.m5.xlarge") && instanceCount == 1 && volumeSizeGB == 20
      ensures baselineDatasetUri.None? && baselineConstraintsUri.None? && baselineStatisticsUri.None?
      ensures s3OutputPath.None? && subnetId.None? && securityGroupId.None?
      ensures scheduleExpression == Some(HOURLY_SCHEDULE)
    {
      monitoringScheduleName, endpointName, roleArn := None, None, None;
      monitoringType := Some(DataQuality);
      instanceType := Some("ml.m5.xlarge");
      instanceCount, volumeSizeGB := 1, 20;
      baselineDatasetUri, baselineConstraintsUri, baselineStatisticsUri := None, None, None;
      s3OutputPath := None;
      scheduleExpression := Some(HOURLY_SCHEDULE);
      subnetId, securityGroupId := None, None;
    }
  }

  /** The builder: every setter overwrites fields of the one configuration it owns. */
  class MonitoringConfigBuilder {
    const config: MonitoringConfig

    constructor ()
      ensures fresh(config)
      ensures config.Snapshot() == MonitoringSettings(None, None, Some(DataQuality), None, Some("ml.m5.xlarge"), 1, 20,
                                                      None, None, None, None, Some(HOURLY_SCHEDULE), None, None)
    {
      config := new MonitoringConfig();
    }

    method MonitoringScheduleName(name: Option<string>)
      modifies config
      ensures config.Snapshot() == old(config.Snapshot()).(monitoringScheduleName := name)
    {
      config.monitoringScheduleName := name;
    }

    method EndpointName(endpointName: Option<string>)
      modifies config
      ensures config.Snapshot() == old(config.Snapshot()).(endpointName := endpointName)
    {
      config.endpointName := endpointName;
    }

    method SetMonitoringType(monitoringType: Option<MonitoringType>)
      modifies config
      ensures config.Snapshot() == old(config.Snapshot()).(monitoringType := monitoringType)
    {
      config.monitoringType := monitoringType;
    }

    method RoleArn(roleArn: Option<string>)
      modifies config
      ensures config.Snapshot() == old(config.Snapshot()).(roleArn := roleArn)
    {
      config.roleArn := roleArn;
    }

    method InstanceType(instanceType: Option<string>)
      modifies config
      ensures config.Snapshot() == old(config.Snapshot()).(instanceType := instanceType)
    {
      config.instanceType := instanceType;
    }

    method InstanceCount(instanceCount: int32)
      modifies config
      ensures config.Snapshot() == old(config.Snapshot()).(instanceCount := instanceCount)
    {
      config.instanceCount := instanceCount;
    }

    method VolumeSizeGB(volumeSizeGB: int32)
      modifies config
      ensures config.Snapshot() == old(config.Snapshot()).(volumeSizeGB := volumeSizeGB)
    {
      config.volumeSizeGB := volumeSizeGB;
    }

    method BaselineDatasetUri(uri: Option<string>)
      modifies config
      ensures config.Snapshot() == old(config.Snapshot()).(baselineDatasetUri := uri)
    {
      config.baselineDatasetUri := uri;
    }

    method BaselineConstraintsUri(uri: Option<string>)
      modifies config
      ensures config.Snapshot() == old(config.Snapshot()).(baselineConstraintsUri := uri)
    {
      config.baselineConstraintsUri := uri;
    }

    method BaselineStatisticsUri(uri: Option<string>)
      modifies config
      ensures config.Snapshot() == old(config.Snapshot()).(baselineStatisticsUri := uri)
    {
      config.baselineStatisticsUri := uri;
    }

    method S3OutputPath(path: Option<string>)
      modifies config
      ensures config.Snapshot() == old(config.Snapshot()).(s3OutputPath := path)
    {
      config.s3OutputPath := path;
    }

    /** Sets the schedule to the given expression, whatever was set before. */
    method ScheduleExpression(expression: Option<string>)
      modifies config
      ensures config.Snapshot() == old(config.Snapshot()).(scheduleExpression := expression)
    {
      config.scheduleExpression := expression;
    }

    /** Sets the schedule back to the default hourly expression. */
    method HourlySchedule()
      modifies config
      ensures config.Snapshot() == old(config.Snapshot()).(scheduleExpression := Some(HOURLY_SCHEDULE))
    {
      config.scheduleExpression := Some(HOURLY_SCHEDULE);
    }

    /** Sets the schedule to run daily at the given hour, which is not range-checked. */
    method DailyScheduleAt(hour: int32)
      modifies config
      ensures config.Snapshot() == old(config.Snapshot()).(scheduleExpression := Some(DailySchedule(hour)))
    {
      config.scheduleExpression := Some(DailySchedule(hour));
    }

    method SubnetId(subnetId: Option<string>)
      modifies config
      ensures config.Snapshot() == old(config.Snapshot()).(subnetId := subnetId)
    {
      config.subnetId := subnetId;
    }

    method SecurityGroupId(securityGroupId: Option<string>)
      modifies config
      ensures config.Snapshot() == old(config.Snapshot()).(securityGroupId := securityGroupId)
    {
      config.securityGroupId := securityGroupId;
    }

    /** `build()`: the configuration itself when both names are set, the first missing one's error otherwise. */
    method Build() returns (r: Result<MonitoringConfig, string>)
      ensures ValidateSettings(config.Snapshot()).Ok? ==> r == Ok(config)
      ensures ValidateSettings(config.Snapshot()).Err? ==> r == Err(ValidateSettings(config.Snapshot()).error)
    {
      if config.monitoringScheduleName.None? {
        return Err(SCHEDULE_NAME_REQUIRED);
      }
      if config.endpointName.None? {
        return Err(ENDPOINT_NAME_REQUIRED);
      }
      return Ok(config);
    }
  }
}
