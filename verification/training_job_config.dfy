/**
 * The settings of a SageMaker training job and their builder.
 *
 * Setters overwrite fields of the one configuration the builder owns, the
 * hyperparameter map is updated in place, and `Build` rejects a configuration whose
 * job name, role or training image is null or empty.
 */
module TrainingJobConfigModel {
  import opened Values

  /** The value of every field of a training-job configuration. */
  datatype TrainingJobSettings = TrainingJobSettings(
    jobName: Option<string>,
    roleArn: Option<string>,
    trainingImage: Option<string>,
    instanceType: Option<string>,
    instanceCount: int32,
    volumeSizeGB: int32,
    maxRuntimeSeconds: int32,
    s3TrainDataUri: Option<string>,
    s3ValidationDataUri: Option<string>,
    inputContentType: Option<string>,
    s3OutputPath: Option<string>,
    hyperParameters: map<string, string>,
    subnetId: Option<string>,
    securityGroupId: Option<string>)

  const JOB_NAME_REQUIRED: string := "jobName 不能为空"
  const ROLE_ARN_REQUIRED: string := "roleArn 不能为空"
  const TRAINING_IMAGE_REQUIRED: string := "trainingImage 不能为空"

  /**
   * What `build()` decides: the settings unchanged when the job name, role and image
   * are all non-null and non-empty; otherwise the error for the first of them, in that
   * order, that is missing.
   */
  function ValidateSettings(s: TrainingJobSettings): (r: Result<TrainingJobSettings, string>)
    ensures r.Ok? <==> IsPresent(s.jobName) && IsPresent(s.roleArn) && IsPresent(s.trainingImage)
    ensures r.Ok? ==> r.value == s
    ensures !IsPresent(s.jobName) ==> r == Err(JOB_NAME_REQUIRED)
    ensures IsPresent(s.jobName) && !IsPresent(s.roleArn) ==> r == Err(ROLE_ARN_REQUIRED)
    ensures IsPresent(s.jobName) && IsPresent(s.roleArn) && !IsPresent(s.trainingImage) ==> r == Err(TRAINING_IMAGE_REQUIRED)
  {
    if s.jobName.None? || s.jobName.value == "" then Err(JOB_NAME_REQUIRED)
    else if s.roleArn.None? || s.roleArn.value == "" then Err(ROLE_ARN_REQUIRED)
    else if s.trainingImage.None? || s.trainingImage.value == "" then Err(TRAINING_IMAGE_REQUIRED)
    else Ok(s)
  }

  /** Validation looks at nothing but the three required fields. */
  lemma ValidateOnlyReadsRequiredFields(s: TrainingJobSettings, t: TrainingJobSettings)
    requires s.jobName == t.jobName && s.roleArn == t.roleArn && s.trainingImage == t.trainingImage
    ensures ValidateSettings(s).Ok? == ValidateSettings(t).Ok?
    ensures ValidateSettings(s).Err? ==> ValidateSettings(s) == ValidateSettings(t)
  {
  }

  /** The training-job configuration object the builder fills in. */
  class TrainingJobConfig {
    var jobName: Option<string>
    var roleArn: Option<string>
    var trainingImage: Option<string>
    var instanceType: Option<string>
    var instanceCount: int32
    var volumeSizeGB: int32
    var maxRuntimeSeconds: int32
    var s3TrainDataUri: Option<string>
    var s3ValidationDataUri: Option<string>
    var inputContentType: Option<string>
    var s3OutputPath: Option<string>
    var hyperParameters: map<string, string>
    var subnetId: Option<string>
    var securityGroupId: Option<string>

    /** The current value of every field. */
    function Snapshot(): TrainingJobSettings
      reads this
    {
      TrainingJobSettings(jobName, roleArn, trainingImage, instanceType, instanceCount, volumeSizeGB,
                          maxRuntimeSeconds, s3TrainDataUri, s3ValidationDataUri, inputContentType,
                          s3OutputPath, hyperParameters, subnetId, securityGroupId)
    }

    /** The defaults of a fresh configuration; the names, URIs and VPC settings are unset. */
    constructor ()
      ensures jobName.None? && roleArn.None? && trainingImage.None?
      ensures instanceType == Some("ml.m5.xlarge") && instanceCount == 1 && volumeSizeGB == 50
      ensures maxRuntimeSeconds == 86400 && inputContentType == Some("text/csv")
      ensures s3TrainDataUri.None? && s3ValidationDataUri.None? && s3OutputPath.None?
      ensures subnetId.None? && securityGroupId.None?
      ensures hyperParameters == map[]
    {
      jobName, roleArn, trainingImage := None, None, None;
      instanceType := Some("ml.m5.xlarge");
      instanceCount, volumeSizeGB, maxRuntimeSeconds := 1, 50, 86400;
      s3TrainDataUri, s3ValidationDataUri := None, None;
      inputContentType := Some("text/csv");
      s3OutputPath := None;
      hyperParameters := map[];
      subnetId, securityGroupId := None, None;
    }
  }

  /** The builder: every setter overwrites fields of the one configuration it owns. */
  class TrainingJobConfigBuilder {
    const config: TrainingJobConfig

    constructor ()
      ensures fresh(config)
      ensures config.Snapshot() == TrainingJobSettings(None, None, None, Some("ml.m5.xlarge"), 1, 50, 86400,
                                                       None, None, Some("text/csv"), None, map[], None, None)
    {
      config := new TrainingJobConfig();
    }

    method JobName(jobName: Option<string>)
      modifies config
      ensures config.Snapshot() == old(config.Snapshot()).(jobName := jobName)
    {
      config.jobName := jobName;
    }

    method RoleArn(roleArn: Option<string>)
      modifies config
      ensures config.Snapshot() == old(config.Snapshot()).(roleArn := roleArn)
    {
      config.roleArn := roleArn;
    }

    method TrainingImage(trainingImage: Option<string>)
      modifies config
      ensures config.Snapshot() == old(config.Snapshot()).(trainingImage := trainingImage)
    {
      config.trainingImage := trainingImage;
    }

    method InstanceType(instanceType: Option<string>)
      modifies config
      ensures config.Snapshot() == old(config.Snapshot()).(instanceType := instanceType)
    {
      config.instanceType := instanceType;
    }

    method InstanceCount(instanceCount: int32)
      modifies config
      ensures config.Snapshot() == old(config.Snapshot()).(instanceCount := instanceCount)
    {
      config.instanceCount := instanceCount;
    }

    method VolumeSizeGB(volumeSizeGB: int32)
      modifies config
      ensures config.Snapshot() == old(config.Snapshot()).(volumeSizeGB := volumeSizeGB)
    {
      config.volumeSizeGB := volumeSizeGB;
    }

    method MaxRuntimeSeconds(maxRuntimeSeconds: int32)
      modifies config
      ensures config.Snapshot() == old(config.Snapshot()).(maxRuntimeSeconds := maxRuntimeSeconds)
    {
      config.maxRuntimeSeconds := maxRuntimeSeconds;
    }

    method S3TrainDataUri(uri: Option<string>)
      modifies config
      ensures config.Snapshot() == old(config.Snapshot()).(s3TrainDataUri := uri)
    {
      config.s3TrainDataUri := uri;
    }

    method S3ValidationDataUri(uri: Option<string>)
      modifies config
      ensures config.Snapshot() == old(config.Snapshot()).(s3ValidationDataUri := uri)
    {
      config.s3ValidationDataUri := uri;
    }

    method InputContentType(contentType: Option<string>)
      modifies config
      ensures config.Snapshot() == old(config.Snapshot()).(inputContentType := contentType)
    {
      config.inputContentType := contentType;
    }

    method S3OutputPath(path: Option<string>)
      modifies config
      ensures config.Snapshot() == old(config.Snapshot()).(s3OutputPath := path)
    {
      config.s3OutputPath := path;
    }

    /** `hyperParameters.put(key, value)`: key now maps to value, every other entry is kept. */
    method HyperParameter(key: string, value: string)
      modifies config
      ensures config.Snapshot() == old(config.Snapshot()).(hyperParameters := old(config.hyperParameters)[key := value])
      ensures config.hyperParameters[key] == value
      ensures forall k :: k in old(config.hyperParameters) && k != key ==>
                k in config.hyperParameters && config.hyperParameters[k] == old(config.hyperParameters)[k]
    {
      config.hyperParameters := config.hyperParameters[key := value];
    }

    /**
     * `hyperParameters.putAll(m)`: the given entries win on shared keys, and every
     * earlier entry whose key m does not mention is kept.
     */
    method HyperParameters(m: map<string, string>)
      modifies config
      ensures config.Snapshot() == old(config.Snapshot()).(hyperParameters := old(config.hyperParameters) + m)
      ensures config.hyperParameters.Keys == old(config.hyperParameters).Keys + m.Keys
      ensures forall k :: k in m ==> config.hyperParameters[k] == m[k]
      ensures forall k :: k in old(config.hyperParameters) && k !in m ==>
                config.hyperParameters[k] == old(config.hyperParameters)[k]
    {
      config.hyperParameters := config.hyperParameters + m;
    }

    method SubnetId(subnetId: Option<string>)
      modifies config
      ensures config.Snapshot() == old(config.Snapshot()).(subnetId := subnetId)
    {
      config.subnetId := subnetId;
    }

    method SecurityGroupId(securityGroupId: Option<string>)
      modifies config
      ensures config.Snapshot() == old(config.Snapshot()).(securityGroupId := securityGroupId)
    {
      config.securityGroupId := securityGroupId;
    }

    /** `build()`: the configuration itself when it is valid, the first missing field's error otherwise. */
    method Build() returns (r: Result<TrainingJobConfig, string>)
      ensures ValidateSettings(config.Snapshot()).Ok? ==> r == Ok(config)
      ensures ValidateSettings(config.Snapshot()).Err? ==> r == Err(ValidateSettings(config.Snapshot()).error)
    {
      if config.jobName.None? || config.jobName.value == "" {
        return Err(JOB_NAME_REQUIRED);
      }
      if config.roleArn.None? || config.roleArn.value == "" {
        return Err(ROLE_ARN_REQUIRED);
      }
      if config.trainingImage.None? || config.trainingImage.value == "" {
        return Err(TRAINING_IMAGE_REQUIRED);
      }
      return Ok(config);
    }
  }
}
