/**
 * The settings of a SageMaker real-time endpoint and their builder.
 *
 * The builder owns one configuration object and every setter overwrites a field of
 * it in place; `Build` checks the model name and derives the names left unset.
 */
module EndpointConfigModel {
  import opened Values

  /** The value of every field of an endpoint configuration. */
  datatype EndpointSettings = EndpointSettings(
    modelName: Option<string>,
    endpointConfigName: Option<string>,
    endpointName: Option<string>,
    roleArn: Option<string>,
    inferenceImage: Option<string>,
    modelDataUrl: Option<string>,
    instanceType: Option<string>,
    initialInstanceCount: int32,
    enableAutoScaling: bool,
    minCapacity: int32,
    maxCapacity: int32,
    targetInvocationsPerInstance: int32,
    enableDataCapture: bool,
    dataCaptureS3Uri: Option<string>,
    dataCapturePercentage: int32,
    environment: map<string, string>)

  const MODEL_NAME_REQUIRED: string := "modelName 不能为空"

  /**
   * What `build()` does to the settings: fails exactly when no model name was set (an
   * empty one is accepted), and otherwise fills in each name left unset from the model
   * name, changing nothing else.
   */
  function BuildSettings(s: EndpointSettings): (r: Result<EndpointSettings, string>)
    ensures r.Err? <==> s.modelName.None?
    ensures r.Err? ==> r.error == MODEL_NAME_REQUIRED
    ensures r.Ok? ==> r.value.endpointConfigName.Some? && r.value.endpointName.Some?
    ensures r.Ok? && s.endpointConfigName.Some? ==> r.value.endpointConfigName == s.endpointConfigName
    ensures r.Ok? && s.endpointConfigName.None? ==> r.value.endpointConfigName == Some(s.modelName.value + "-config")
    ensures r.Ok? && s.endpointName.Some? ==> r.value.endpointName == s.endpointName
    ensures r.Ok? && s.endpointName.None? ==> r.value.endpointName == Some(s.modelName.value + "-endpoint")
    ensures r.Ok? ==> r.value.(endpointConfigName := s.endpointConfigName, endpointName := s.endpointName) == s
  {
    if s.modelName.None? then
      Err(MODEL_NAME_REQUIRED)
    else
      var withConfigName :=
        if s.endpointConfigName.None? then s.(endpointConfigName := Some(s.modelName.value + "-config")) else s;
      var withNames :=
        if withConfigName.endpointName.None? then withConfigName.(endpointName := Some(s.modelName.value + "-endpoint"))
        else withConfigName;
      Ok(withNames)
  }

  /** Building twice gives what building once gave: a built configuration has both names. */
  lemma BuildIdempotent(s: EndpointSettings)
    requires BuildSettings(s).Ok?
    ensures BuildSettings(BuildSettings(s).value) == BuildSettings(s)
  {
    var built := BuildSettings(s).value;
    assert built.modelName == s.modelName;
  }

  /** The endpoint configuration object the builder fills in. */
  class EndpointConfig {
    var modelName: Option<string>
    var endpointConfigName: Option<string>
    var endpointName: Option<string>
    var roleArn: Option<string>
    var inferenceImage: Option<string>
    var modelDataUrl: Option<string>
    var instanceType: Option<string>
    var initialInstanceCount: int32
    var enableAutoScaling: bool
    var minCapacity: int32
    var maxCapacity: int32
    var targetInvocationsPerInstance: int32
    var enableDataCapture: bool
    var dataCaptureS3Uri: Option<string>
    var dataCapturePercentage: int32
    var environment: map<string, string>

    /** The current value of every field. */
    function Snapshot(): EndpointSettings
      reads this
    {
      EndpointSettings(modelName, endpointConfigName, endpointName, roleArn, inferenceImage, modelDataUrl,
                       instanceType, initialInstanceCount, enableAutoScaling, minCapacity, maxCapacity,
                       targetInvocationsPerInstance, enableDataCapture, dataCaptureS3Uri,
                       dataCapturePercentage, environment)
    }

    /** The defaults of a fresh configuration; every name and URI is unset. */
    constructor ()
      ensures modelName.None? && endpointConfigName.None? && endpointName.None?
      ensures roleArn.None? && inferenceImage.None? && modelDataUrl.None? && dataCaptureS3Uri.None?
      ensures instanceType == Some("ml.m5.xlarge") && initialInstanceCount == 1
      ensures !enableAutoScaling && minCapacity == 1 && maxCapacity == 4 && targetInvocationsPerInstance == 1000
      ensures !enableDataCapture && dataCapturePercentage == 100
      ensures environment == map[]
    {
      modelName, endpointConfigName, endpointName := None, None, None;
      roleArn, inferenceImage, modelDataUrl := None, None, None;
      instanceType := Some("ml.m5.xlarge");
      initialInstanceCount := 1;
      enableAutoScaling := false;
      minCapacity, maxCapacity, targetInvocationsPerInstance := 1, 4, 1000;
      enableDataCapture := false;
      dataCaptureS3Uri := None;
      dataCapturePercentage := 100;
      environment := map[];
    }
  }

  /** The builder: every setter overwrites fields of the one configuration it owns. */
  class EndpointConfigBuilder {
    const config: EndpointConfig

    constructor ()
      ensures fresh(config)
      ensures config.Snapshot() == EndpointSettings(None, None, None, None, None, None, Some("ml.m5.xlarge"), 1,
                                                    false, 1, 4, 1000, false, None, 100, map[])
    {
      config := new EndpointConfig();
    }

    method ModelName(modelName: Option<string>)
      modifies config
      ensures config.Snapshot() == old(config.Snapshot()).(modelName := modelName)
    {
      config.modelName := modelName;
    }

    method EndpointConfigName(endpointConfigName: Option<string>)
      modifies config
      ensures config.Snapshot() == old(config.Snapshot()).(endpointConfigName := endpointConfigName)
    {
      config.endpointConfigName := endpointConfigName;
    }

    method EndpointName(endpointName: Option<string>)
      modifies config
      ensures config.Snapshot() == old(config.Snapshot()).(endpointName := endpointName)
    {
      config.endpointName := endpointName;
    }

    method RoleArn(roleArn: Option<string>)
      modifies config
      ensures config.Snapshot() == old(config.Snapshot()).(roleArn := roleArn)
    {
      config.roleArn := roleArn;
    }

    method InferenceImage(inferenceImage: Option<string>)
      modifies config
      ensures config.Snapshot() == old(config.Snapshot()).(inferenceImage := inferenceImage)
    {
      config.inferenceImage := inferenceImage;
    }

    method ModelDataUrl(modelDataUrl: Option<string>)
      modifies config
      ensures config.Snapshot() == old(config.Snapshot()).(modelDataUrl := modelDataUrl)
    {
      config.modelDataUrl := modelDataUrl;
    }

    method InstanceType(instanceType: Option<string>)
      modifies config
      ensures config.Snapshot() == old(config.Snapshot()).(instanceType := instanceType)
    {
      config.instanceType := instanceType;
    }

    method InitialInstanceCount(initialInstanceCount: int32)
      modifies config
      ensures config.Snapshot() == old(config.Snapshot()).(initialInstanceCount := initialInstanceCount)
    {
      config.initialInstanceCount := initialInstanceCount;
    }

    method EnableAutoScaling(enable: bool)
      modifies config
      ensures config.Snapshot() == old(config.Snapshot()).(enableAutoScaling := enable)
    {
      config.enableAutoScaling := enable;
    }

    /** Turns auto scaling on and stores the three values as given; min <= max is not checked. */
    method AutoScalingConfig(minCapacity: int32, maxCapacity: int32, targetInvocations: int32)
      modifies config
      ensures config.Snapshot() == old(config.Snapshot()).(enableAutoScaling := true, minCapacity := minCapacity,
                                                           maxCapacity := maxCapacity,
                                                           targetInvocationsPerInstance := targetInvocations)
    {
      config.enableAutoScaling := true;
      config.minCapacity := minCapacity;
      config.maxCapacity := maxCapacity;
      config.targetInvocationsPerInstance := targetInvocations;
    }

    /** Turns data capture on and stores the URI and percentage; the percentage is not range-checked. */
    method EnableDataCapture(s3Uri: Option<string>, percentage: int32)
      modifies config
      ensures config.Snapshot() == old(config.Snapshot()).(enableDataCapture := true, dataCaptureS3Uri := s3Uri,
                                                           dataCapturePercentage := percentage)
    {
      config.enableDataCapture := true;
      config.dataCaptureS3Uri := s3Uri;
      config.dataCapturePercentage := percentage;
    }

    /** `environment.put(key, value)`: key now maps to value, every other entry is kept. */
    method Environment(key: string, value: string)
      modifies config
      ensures config.Snapshot() == old(config.Snapshot()).(environment := old(config.environment)[key := value])
      ensures config.environment[key] == value
      ensures forall k :: k in old(config.environment) && k != key ==> k in config.environment && config.environment[k] == old(config.environment)[k]
    {
      config.environment := config.environment[key := value];
    }

    /**
     * `build()`: the error when no model name was set, leaving the configuration as it
     * was; otherwise the configuration itself, with its settings as BuildSettings gives.
     */
    method Build() returns (r: Result<EndpointConfig, string>)
      modifies config
      ensures BuildSettings(old(config.Snapshot())).Err? ==>
        r == Err(MODEL_NAME_REQUIRED) && config.Snapshot() == old(config.Snapshot())
      ensures BuildSettings(old(config.Snapshot())).Ok? ==>
        r == Ok(config) && config.Snapshot() == BuildSettings(old(config.Snapshot())).value
    {
      if config.modelName.None? {
        return Err(MODEL_NAME_REQUIRED);
      }
      if config.endpointConfigName.None? {
        config.endpointConfigName := Some(config.modelName.value + "-config");
      }
      if config.endpointName.None? {
        config.endpointName := Some(config.modelName.value + "-endpoint");
      }
      return Ok(config);
    }
  }
}
