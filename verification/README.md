# AWS Java samples: a verified model of the core

This project models in Dafny the logic of the AWS Java samples, a set of services that wrap the AWS SDK:

- **SageMaker container images.** The ECR image URIs of the deep-learning containers (PyTorch, TensorFlow, MXNet, HuggingFace) and of the built-in algorithms (XGBoost, scikit-learn) in every region. This includes the Model Monitor analyzer image and the default baseline output locations.
- **SageMaker configuration builders.** The endpoint, training-job and monitoring-schedule builders. Each mutable configuration object is a Dafny class whose setters overwrite fields in place. `build()` validates it and derives default names.
- **Amazon DCV login.** The pre-signed login URL, the `dcv generate-auth-token` command, and reading the token back from the SSM command output. The URL is built from the instance's public or private IP.
- **Application configuration.** Properties with defaults, integer settings, the security-group list, and the choice of credentials provider.
- **EC2 instance types.** The null-tolerant projection of the API record, the wrapping GPU totals, and the paginated listings with their server-side filters and client-side filters.
- **Textract.** The expense summary and its line items, the key/value pairs of a forms analysis, and the merge of the OCR result with the expense result.
- **Bedrock.** The content blocks sent with a chat message, the format and name chosen for a file, and the text read back from a Converse response.
- **IAM policy validation.** Extracting the `PolicyDocument` object by brace matching, and recognising access-denied errors.

Java `null` is `Option<T>`. `String.format` of a null renders as `"null"`. Java `int` and `long` are the newtypes `int32` and `int64`, and their wrap-around is written out. Exceptions are the `Err` case of a `Result`.

The SDK round trips are inputs to the model:

- an SSM command is a function `runCommand`;
- a paginated listing is the sequence of pages the service returns;
- a file read is a function `readFile` that yields the bytes, or `None` when reading throws.

Each source file is one module:

- values.dfy: `Values`, Option, Result, int32/int64
- java_text.dfy: `JavaText`, the `String` operations the code relies on (`trim` removes every character up to U+0020, as Java's does)
- sagemaker_images.dfy: `SageMakerImages`, SageMakerImageService.java
- sagemaker_monitoring.dfy: `SageMakerMonitoring`, SageMakerMonitoringService.java
- endpoint_config.dfy: `EndpointConfigModel`, EndpointConfig.java
- training_job_config.dfy: `TrainingJobConfigModel`, TrainingJobConfig.java
- monitoring_config.dfy: `MonitoringConfigModel`, MonitoringConfig.java
- dcv_service.dfy: `DcvService`, DcvService.java
- command_result.dfy: `CommandResults`, CommandResult.java
- ec2_manager.dfy: `Ec2Manager`, Ec2Manager.java (DCV part)
- aws_config.dfy: `AwsConfigModel`, AwsConfig.java
- instance_type_info.dfy: `InstanceTypes`, InstanceTypeInfo.java
- instance_type_service.dfy: `InstanceTypeService`, Ec2InstanceTypeService.java
- textract_expense.dfy: `TextractExpense`, TextractService.java (expense, merge)
- textract_forms.dfy: `TextractForms`, TextractService.java (forms)
- bedrock_llm.dfy: `BedrockLlm`, BedrockLlmService.java
- policy_validation.dfy: `PolicyValidation`, PolicyValidationTest.java (helpers)

## Model

| member | source | states |
|---|---|---|
| SageMakerImages.AccountTablesCoverListedRegions | src/main/java/com/aws/sample/sagemaker/SageMakerImageService.java:46-75 | The built-in-algorithm account table and the DLC account table cover exactly the same listed regions. |
| SageMakerImages.EcrDomain | src/main/java/com/aws/sample/sagemaker/SageMakerImageService.java:99-105 | The domain is "dkr.ecr." + region, ending ".amazonaws.com.cn" for a China region and ".amazonaws.com" otherwise. |
| SageMakerImages.UsEast1Domain | src/main/java/com/aws/sample/sagemaker/SageMakerImageService.java:99-105 | The ECR domain of us-east-1 is "dkr.ecr.us-east-1.amazonaws.com". |
| SageMakerImages.DlcAccountId | src/main/java/com/aws/sample/sagemaker/SageMakerImageService.java:306-308 | The two China regions use their own DLC account. Every other region uses 763104351884. The result is a 12-digit account ID. |
| SageMakerImages.BuiltInAccountId | src/main/java/com/aws/sample/sagemaker/SageMakerImageService.java:315-317 | A listed region gives its table entry and any other region gives the default account. The result is always a 12-digit account ID. |
| SageMakerImages.PyTorchTrainingImage | src/main/java/com/aws/sample/sagemaker/SageMakerImageService.java:117-122 | The image is the generic DLC image of framework "pytorch" and job "training", tagged version-device-python. |
| SageMakerImages.PyTorchInferenceImage | src/main/java/com/aws/sample/sagemaker/SageMakerImageService.java:132-137 | The generic DLC image of "pytorch"/"inference" with the framework tag. |
| SageMakerImages.TensorFlowTrainingImage | src/main/java/com/aws/sample/sagemaker/SageMakerImageService.java:149-154 | The generic DLC image of "tensorflow"/"training" with the framework tag. |
| SageMakerImages.TensorFlowInferenceImage | src/main/java/com/aws/sample/sagemaker/SageMakerImageService.java:164-169 | The generic DLC image of "tensorflow"/"inference" with the framework tag. |
| SageMakerImages.MXNetTrainingImage | src/main/java/com/aws/sample/sagemaker/SageMakerImageService.java:248-253 | The generic DLC image of "mxnet"/"training" with the framework tag. |
| SageMakerImages.MXNetInferenceImage | src/main/java/com/aws/sample/sagemaker/SageMakerImageService.java:263-268 | The generic DLC image of "mxnet"/"inference" with the framework tag. |
| SageMakerImages.HuggingFaceTrainingImage | src/main/java/com/aws/sample/sagemaker/SageMakerImageService.java:182-188 | As written, the training tag leads with the transformers version. |
| SageMakerImages.HuggingFaceInferenceImage | src/main/java/com/aws/sample/sagemaker/SageMakerImageService.java:199-205 | The inference tag leads with the PyTorch version, followed by "-transformers" and the transformers version, the device and Python. |
| SageMakerImages.HuggingFaceTrainingImageIntended | src/main/java/com/aws/sample/sagemaker/SageMakerImageService.java:182-188 | The corrected training image is tagged like the inference image. |
| SageMakerImages.XGBoostImage | src/main/java/com/aws/sample/sagemaker/SageMakerImageService.java:218-221 | The built-in algorithm image of "xgboost", tagged with the version. |
| SageMakerImages.SklearnImage | src/main/java/com/aws/sample/sagemaker/SageMakerImageService.java:232-236 | The built-in algorithm image of "scikit-learn", tagged version + "-" + pythonVersion. |
| SageMakerImages.ParseImageUriRoundTrip | src/main/java/com/aws/sample/sagemaker/SageMakerImageService.java:282-299 | A URI `{account}.{domain}/{repository}:{tag}` built from parts without the separators reads back as the same four parts. |
| SageMakerImages.DlcImageParts | src/main/java/com/aws/sample/sagemaker/SageMakerImageService.java:282-286 | A DLC URI reads back as the region's DLC account, the region's ECR domain, repository framework-jobType and the given tag. |
| SageMakerImages.DlcImage | src/main/java/com/aws/sample/sagemaker/SageMakerImageService.java:282-286 | The generic DLC builder: account "." domain "/" framework-jobType ":" tag. It has no contract of its own; DlcImageParts reads each part back. |
| SageMakerImages.BuiltInAlgorithmImage | src/main/java/com/aws/sample/sagemaker/SageMakerImageService.java:294-298 | The generic built-in builder: account "." domain "/sagemaker-" algorithm ":" tag. It has no contract of its own; BuiltInImageParts reads each part back. |
| SageMakerImages.BuiltInImageParts | src/main/java/com/aws/sample/sagemaker/SageMakerImageService.java:294-298 | A built-in URI reads back as the region's built-in account, the region's ECR domain, repository "sagemaker-" + algorithm and the tag. |
| SageMakerImages.PyTorchTrainingExample | src/main/java/com/aws/sample/sagemaker/SageMakerImageService.java:30-31 | PyTorch 2.0.1 on GPU with py310 in us-east-1 gives "763104351884.dkr.ecr.us-east-1.amazonaws.com/pytorch-training:2.0.1-gpu-py310", the documented example. |
| SageMakerImages.HuggingFaceTrainingIgnoresPyTorchVersion | src/main/java/com/aws/sample/sagemaker/SageMakerImageService.java:182-188 | As written, the training image does not depend on the PyTorch version argument. |
| SageMakerImages.HuggingFaceTrainingDiscrepancy | src/main/java/com/aws/sample/sagemaker/SageMakerImageService.java:182-188 | With transformers 4.28.1 and PyTorch 2.0.0, the as-written image differs from the intended one. |
| SageMakerImages.HuggingFaceImageParts | src/main/java/com/aws/sample/sagemaker/SageMakerImageService.java:182-205 | A HuggingFace URI reads back as the DLC account and domain, repository "huggingface-pytorch-" + job, and the tag. |
| SageMakerImages.HuggingFaceTrainingImageParts | src/main/java/com/aws/sample/sagemaker/SageMakerImageService.java:182-188 | The tag of a HuggingFace training URI reads back unchanged. |
| SageMakerImages.HuggingFaceTagLead | src/main/java/com/aws/sample/sagemaker/SageMakerImageService.java:199-205 | A HuggingFace tag starts with its lead version + "-transformers" + the transformers version. |
| SageMakerImages.HuggingFaceIntendedMatchesInference | src/main/java/com/aws/sample/sagemaker/SageMakerImageService.java:182-205 | For the same versions, the corrected training image and the inference image carry the same tag, and that tag leads with the PyTorch version. |
| SageMakerMonitoring.MonitoringAccountId | src/main/java/com/aws/sample/sagemaker/SageMakerMonitoringService.java:407-425 | The analyzer account is the us-east-1 default for us-east-1 and for any unlisted region, and it is always a 12-digit account ID. |
| SageMakerMonitoring.MonitoringAccountTable | src/main/java/com/aws/sample/sagemaker/SageMakerMonitoringService.java:407-425 | The switch returns MonitorAccounts[region] for each of its fourteen regions and the us-east-1 account for any other region. |
| SageMakerMonitoring.MonitorAccountsCoverListedRegions | src/main/java/com/aws/sample/sagemaker/SageMakerMonitoringService.java:408-422 | The switch covers exactly the fourteen regions of the image service's account tables. |
| SageMakerMonitoring.MonitoringImage | src/main/java/com/aws/sample/sagemaker/SageMakerMonitoringService.java:390-397 | The analyzer image is account + "." + ECR domain + the analyzer repository path. |
| SageMakerMonitoring.MonitoringImageAccount | src/main/java/com/aws/sample/sagemaker/SageMakerMonitoringService.java:390-397 | The text before the first '.' of the analyzer image is the region's monitoring account. |
| SageMakerMonitoring.DataQualityBaselineOutputs | src/main/java/com/aws/sample/sagemaker/SageMakerMonitoringService.java:118-125 | Statistics and constraints are written under the output URI, as "/statistics.json" and "/constraints.json". The two locations are distinct. |
| SageMakerMonitoring.MonitoringBaseline | src/main/java/com/aws/sample/sagemaker/SageMakerMonitoringService.java:226-236 | Each baseline resource is set exactly when its URI is given, and carries that URI. |
| EndpointConfigModel.BuildSettings | src/main/java/com/aws/sample/sagemaker/model/EndpointConfig.java:138-149 | Building fails exactly when no model name is set. Otherwise an unset configuration name becomes model + "-config" and an unset endpoint name becomes model + "-endpoint". Names that are set are kept, and every other field is unchanged. |
| EndpointConfigModel.BuildIdempotent | src/main/java/com/aws/sample/sagemaker/model/EndpointConfig.java:138-149 | Building a built configuration again changes nothing. |
| EndpointConfigModel.EndpointConfig.constructor | src/main/java/com/aws/sample/sagemaker/model/EndpointConfig.java:54-64 | The defaults: one ml.m5.xlarge instance, auto scaling off with capacities 1..4 and 1000 invocations, data capture off at 100 percent, and an empty environment. |
| EndpointConfigModel.EndpointConfigBuilder.constructor | src/main/java/com/aws/sample/sagemaker/model/EndpointConfig.java:54-64 | A new builder owns a fresh configuration holding the defaults. |
| EndpointConfigModel.EndpointConfigBuilder.ModelName | src/main/java/com/aws/sample/sagemaker/model/EndpointConfig.java:73-76 | Overwrites the model name and nothing else. |
| EndpointConfigModel.EndpointConfigBuilder.EndpointConfigName | src/main/java/com/aws/sample/sagemaker/model/EndpointConfig.java:78-81 | Overwrites the endpoint configuration name and nothing else. |
| EndpointConfigModel.EndpointConfigBuilder.EndpointName | src/main/java/com/aws/sample/sagemaker/model/EndpointConfig.java:83-86 | Overwrites the endpoint name and nothing else. |
| EndpointConfigModel.EndpointConfigBuilder.RoleArn | src/main/java/com/aws/sample/sagemaker/model/EndpointConfig.java:88-91 | Overwrites the role and nothing else. |
| EndpointConfigModel.EndpointConfigBuilder.InferenceImage | src/main/java/com/aws/sample/sagemaker/model/EndpointConfig.java:93-96 | Overwrites the inference image and nothing else. |
| EndpointConfigModel.EndpointConfigBuilder.ModelDataUrl | src/main/java/com/aws/sample/sagemaker/model/EndpointConfig.java:98-101 | Overwrites the model data URL and nothing else. |
| EndpointConfigModel.EndpointConfigBuilder.InstanceType | src/main/java/com/aws/sample/sagemaker/model/EndpointConfig.java:103-106 | Overwrites the instance type and nothing else. |
| EndpointConfigModel.EndpointConfigBuilder.InitialInstanceCount | src/main/java/com/aws/sample/sagemaker/model/EndpointConfig.java:108-111 | Overwrites the instance count and nothing else. |
| EndpointConfigModel.EndpointConfigBuilder.EnableAutoScaling | src/main/java/com/aws/sample/sagemaker/model/EndpointConfig.java:113-116 | Overwrites the auto-scaling flag and nothing else. |
| EndpointConfigModel.EndpointConfigBuilder.AutoScalingConfig | src/main/java/com/aws/sample/sagemaker/model/EndpointConfig.java:118-124 | Turns auto scaling on and stores the three values unchecked. |
| EndpointConfigModel.EndpointConfigBuilder.EnableDataCapture | src/main/java/com/aws/sample/sagemaker/model/EndpointConfig.java:126-131 | Turns data capture on and stores the URI and percentage unchecked. |
| EndpointConfigModel.EndpointConfigBuilder.Environment | src/main/java/com/aws/sample/sagemaker/model/EndpointConfig.java:133-136 | The key now maps to the value, and every other entry is kept. |
| EndpointConfigModel.EndpointConfigBuilder.Build | src/main/java/com/aws/sample/sagemaker/model/EndpointConfig.java:138-149 | Returns the error and leaves the configuration unchanged, or returns the configuration itself with the settings BuildSettings gives. |
| TrainingJobConfigModel.ValidateSettings | src/main/java/com/aws/sample/sagemaker/model/TrainingJobConfig.java:140-151 | Succeeds exactly when the job name, role and image are all non-null and non-empty. Otherwise it returns the error of the first missing one, in that order. |
| TrainingJobConfigModel.ValidateOnlyReadsRequiredFields | src/main/java/com/aws/sample/sagemaker/model/TrainingJobConfig.java:140-151 | Two configurations that agree on the three required fields validate alike. |
| TrainingJobConfigModel.TrainingJobConfig.constructor | src/main/java/com/aws/sample/sagemaker/model/TrainingJobConfig.java:48-55 | The defaults: one ml.m5.xlarge, 50 GB, 86400 s, "text/csv", no hyperparameters. |
| TrainingJobConfigModel.TrainingJobConfigBuilder.constructor | src/main/java/com/aws/sample/sagemaker/model/TrainingJobConfig.java:48-55 | A new builder owns a fresh configuration holding the defaults. |
| TrainingJobConfigModel.TrainingJobConfigBuilder.JobName | src/main/java/com/aws/sample/sagemaker/model/TrainingJobConfig.java:65-68 | Overwrites the job name and nothing else. |
| TrainingJobConfigModel.TrainingJobConfigBuilder.RoleArn | src/main/java/com/aws/sample/sagemaker/model/TrainingJobConfig.java:70-73 | Overwrites the role and nothing else. |
| TrainingJobConfigModel.TrainingJobConfigBuilder.TrainingImage | src/main/java/com/aws/sample/sagemaker/model/TrainingJobConfig.java:75-78 | Overwrites the training image and nothing else. |
| TrainingJobConfigModel.TrainingJobConfigBuilder.InstanceType | src/main/java/com/aws/sample/sagemaker/model/TrainingJobConfig.java:80-83 | Overwrites the instance type and nothing else. |
| TrainingJobConfigModel.TrainingJobConfigBuilder.InstanceCount | src/main/java/com/aws/sample/sagemaker/model/TrainingJobConfig.java:85-88 | Overwrites the instance count and nothing else. |
| TrainingJobConfigModel.TrainingJobConfigBuilder.VolumeSizeGB | src/main/java/com/aws/sample/sagemaker/model/TrainingJobConfig.java:90-93 | Overwrites the volume size and nothing else. |
| TrainingJobConfigModel.TrainingJobConfigBuilder.MaxRuntimeSeconds | src/main/java/com/aws/sample/sagemaker/model/TrainingJobConfig.java:95-98 | Overwrites the run-time limit and nothing else. |
| TrainingJobConfigModel.TrainingJobConfigBuilder.S3TrainDataUri | src/main/java/com/aws/sample/sagemaker/model/TrainingJobConfig.java:100-103 | Overwrites the training data URI and nothing else. |
| TrainingJobConfigModel.TrainingJobConfigBuilder.S3ValidationDataUri | src/main/java/com/aws/sample/sagemaker/model/TrainingJobConfig.java:105-108 | Overwrites the validation data URI and nothing else. |
| TrainingJobConfigModel.TrainingJobConfigBuilder.InputContentType | src/main/java/com/aws/sample/sagemaker/model/TrainingJobConfig.java:110-113 | Overwrites the content type and nothing else. |
| TrainingJobConfigModel.TrainingJobConfigBuilder.S3OutputPath | src/main/java/com/aws/sample/sagemaker/model/TrainingJobConfig.java:115-118 | Overwrites the output path and nothing else. |
| TrainingJobConfigModel.TrainingJobConfigBuilder.HyperParameter | src/main/java/com/aws/sample/sagemaker/model/TrainingJobConfig.java:120-123 | The key now maps to the value, and every other hyperparameter is kept. |
| TrainingJobConfigModel.TrainingJobConfigBuilder.HyperParameters | src/main/java/com/aws/sample/sagemaker/model/TrainingJobConfig.java:125-128 | The keys become the union. The given entries win on shared keys, and every other earlier entry is kept. |
| TrainingJobConfigModel.TrainingJobConfigBuilder.SubnetId | src/main/java/com/aws/sample/sagemaker/model/TrainingJobConfig.java:130-133 | Overwrites the subnet and nothing else. |
| TrainingJobConfigModel.TrainingJobConfigBuilder.SecurityGroupId | src/main/java/com/aws/sample/sagemaker/model/TrainingJobConfig.java:135-138 | Overwrites the security group and nothing else. |
| TrainingJobConfigModel.TrainingJobConfigBuilder.Build | src/main/java/com/aws/sample/sagemaker/model/TrainingJobConfig.java:140-151 | Returns the configuration itself when it validates, and otherwise the first missing field's error. |
| MonitoringConfigModel.DailySchedule | src/main/java/com/aws/sample/sagemaker/model/MonitoringConfig.java:118-121 | The cron text has the fixed prefix and suffix, and the part between them reads back as the hour. |
| MonitoringConfigModel.DailyScheduleInjective | src/main/java/com/aws/sample/sagemaker/model/MonitoringConfig.java:118-121 | Different hours give different daily schedules. |
| MonitoringConfigModel.DailyIsNotHourly | src/main/java/com/aws/sample/sagemaker/model/MonitoringConfig.java:113-121 | No daily schedule equals the hourly one. |
| MonitoringConfigModel.ValidateSettings | src/main/java/com/aws/sample/sagemaker/model/MonitoringConfig.java:133-141 | Succeeds exactly when the schedule name and endpoint name are non-null. Empty names are accepted. Otherwise it returns the error of the first missing one. |
| MonitoringConfigModel.MonitoringConfig.constructor | src/main/java/com/aws/sample/sagemaker/model/MonitoringConfig.java:38-44 | The defaults: data quality, one ml.m5.xlarge, 20 GB, the hourly schedule. |
| MonitoringConfigModel.MonitoringConfigBuilder.constructor | src/main/java/com/aws/sample/sagemaker/model/MonitoringConfig.java:38-44 | A new builder owns a fresh configuration holding the defaults. |
| MonitoringConfigModel.MonitoringConfigBuilder.MonitoringScheduleName | src/main/java/com/aws/sample/sagemaker/model/MonitoringConfig.java:53-56 | Overwrites the schedule name and nothing else. |
| MonitoringConfigModel.MonitoringConfigBuilder.EndpointName | src/main/java/com/aws/sample/sagemaker/model/MonitoringConfig.java:58-61 | Overwrites the endpoint name and nothing else. |
| MonitoringConfigModel.MonitoringConfigBuilder.SetMonitoringType | src/main/java/com/aws/sample/sagemaker/model/MonitoringConfig.java:63-66 | Overwrites the monitoring type and nothing else. |
| MonitoringConfigModel.MonitoringConfigBuilder.RoleArn | src/main/java/com/aws/sample/sagemaker/model/MonitoringConfig.java:68-71 | Overwrites the role and nothing else. |
| MonitoringConfigModel.MonitoringConfigBuilder.InstanceType | src/main/java/com/aws/sample/sagemaker/model/MonitoringConfig.java:73-76 | Overwrites the instance type and nothing else. |
| MonitoringConfigModel.MonitoringConfigBuilder.InstanceCount | src/main/java/com/aws/sample/sagemaker/model/MonitoringConfig.java:78-81 | Overwrites the instance count and nothing else. |
| MonitoringConfigModel.MonitoringConfigBuilder.VolumeSizeGB | src/main/java/com/aws/sample/sagemaker/model/MonitoringConfig.java:83-86 | Overwrites the volume size and nothing else. |
| MonitoringConfigModel.MonitoringConfigBuilder.BaselineDatasetUri | src/main/java/com/aws/sample/sagemaker/model/MonitoringConfig.java:88-91 | Overwrites the baseline dataset URI and nothing else. |
| MonitoringConfigModel.MonitoringConfigBuilder.BaselineConstraintsUri | src/main/java/com/aws/sample/sagemaker/model/MonitoringConfig.java:93-96 | Overwrites the baseline constraints URI and nothing else. |
| MonitoringConfigModel.MonitoringConfigBuilder.BaselineStatisticsUri | src/main/java/com/aws/sample/sagemaker/model/MonitoringConfig.java:98-101 | Overwrites the baseline statistics URI and nothing else. |
| MonitoringConfigModel.MonitoringConfigBuilder.S3OutputPath | src/main/java/com/aws/sample/sagemaker/model/MonitoringConfig.java:103-106 | Overwrites the output path and nothing else. |
| MonitoringConfigModel.MonitoringConfigBuilder.ScheduleExpression | src/main/java/com/aws/sample/sagemaker/model/MonitoringConfig.java:108-111 | Sets the schedule to the given expression. |
| MonitoringConfigModel.MonitoringConfigBuilder.HourlySchedule | src/main/java/com/aws/sample/sagemaker/model/MonitoringConfig.java:113-116 | Sets the schedule back to the hourly default. |
| MonitoringConfigModel.MonitoringConfigBuilder.DailyScheduleAt | src/main/java/com/aws/sample/sagemaker/model/MonitoringConfig.java:118-121 | Sets the schedule to the daily expression for the hour. |
| MonitoringConfigModel.MonitoringConfigBuilder.SubnetId | src/main/java/com/aws/sample/sagemaker/model/MonitoringConfig.java:123-126 | Overwrites the subnet and nothing else. |
| MonitoringConfigModel.MonitoringConfigBuilder.SecurityGroupId | src/main/java/com/aws/sample/sagemaker/model/MonitoringConfig.java:128-131 | Overwrites the security group and nothing else. |
| MonitoringConfigModel.MonitoringConfigBuilder.Build | src/main/java/com/aws/sample/sagemaker/model/MonitoringConfig.java:133-141 | Returns the configuration when it validates, and otherwise the first missing name's error. |
| DcvService.PresignedUrl | src/main/java/com/aws/sample/dcv/DcvService.java:25-30 | The URL starts with the scheme, IP, ":" + port and "/?authToken=", and ends with "#" + session. Null parts render as "null". |
| DcvService.PresignedUrlShape | src/main/java/com/aws/sample/dcv/DcvService.java:25-30 | The URL is exactly scheme + ip + ":" + port + "/?authToken=" + token + "#" + session. |
| DcvService.ParseDcvUrlOf | src/main/java/com/aws/sample/dcv/DcvService.java:25-30 | The URL reader splits at the first ':', '/', '?' and '#' of a URL assembled from parts without them. |
| DcvService.PresignedUrlParts | src/main/java/com/aws/sample/dcv/DcvService.java:25-30 | A pre-signed URL reads back as its IP, its port in decimal, "authToken=" + token and its session, when the IP has no ':' and the token no '#'. |
| DcvService.ConfiguredPortUrlParts | src/main/java/com/aws/sample/dcv/DcvService.java:35-37 | The three-argument form reads back with the configured DCV port. |
| DcvService.PresignedUrlWithConfiguredPort | src/main/java/com/aws/sample/dcv/DcvService.java:35-37 | The four-argument URL with the configured DCV port. It has no contract of its own; ConfiguredPortUrlParts states it. |
| DcvService.EffectiveSession | src/main/java/com/aws/sample/dcv/DcvService.java:43 | A null or empty session becomes "console". The result is never empty. |
| DcvService.EffectiveUser | src/main/java/com/aws/sample/dcv/DcvService.java:44 | A null or empty user becomes "ec2-user". The result is never empty. |
| DcvService.TokenGenerationCommands | src/main/java/com/aws/sample/dcv/DcvService.java:42-49 | One command, starting "dcv generate-auth-token --session ". |
| DcvService.TokenCommandIsJoin | src/main/java/com/aws/sample/dcv/DcvService.java:42-49 | The command is the six words dcv, generate-auth-token, --session, session, --user, user joined by spaces. |
| DcvService.JoinSixWords | src/main/java/com/aws/sample/dcv/DcvService.java:46-48 | Joining six words with a space is their concatenation with a space between each pair. |
| DcvService.TokenCommandWords | src/main/java/com/aws/sample/dcv/DcvService.java:42-49 | Split at spaces, the command gives back those six words when the session and user contain no space. |
| CommandResults.CommandResult.IsSuccess | src/main/java/com/aws/sample/common/model/CommandResult.java:25-27 | A success exactly when the status is "Success": case-sensitive, and false for a null status. |
| CommandResults.CommandResult.ToString | src/main/java/com/aws/sample/common/model/CommandResult.java:30-32 | The text starts with "CommandResult{id='" + id + "', status='" and ends with status + "'}". Nulls render as "null". |
| CommandResults.ToStringReadBack | src/main/java/com/aws/sample/common/model/CommandResult.java:30-32 | The text keeps both fields. For an ID without a quote, ParseToString reads the ID and the status back from it. Absent fields read back as "null". |
| Ec2Manager.LastNonBlankBefore | src/main/java/com/aws/sample/Ec2Manager.java:114-119 | The index found is the last non-blank line among the first n. None means all of them are blank. |
| Ec2Manager.TokenFromLines | src/main/java/com/aws/sample/Ec2Manager.java:114-120 | The token is a non-empty, trimmed line of the output. The error is "no token" when every line is blank. |
| Ec2Manager.TokenFromOutput | src/main/java/com/aws/sample/Ec2Manager.java:112-120 | The token is non-empty, trimmed and has no newline. |
| Ec2Manager.TokenFromOutputCases | src/main/java/com/aws/sample/Ec2Manager.java:112-120 | Output whose lines are all blank is an error. Otherwise the token is the trimmed last non-blank line, and only blank lines follow it. |
| Ec2Manager.TokenAfterOutput | src/main/java/com/aws/sample/Ec2Manager.java:112-120 | A token printed on its own last line after any output is the token read back. |
| Ec2Manager.ExtractToken | src/main/java/com/aws/sample/Ec2Manager.java:112-120 | The loop's result equals TokenFromOutput. |
| Ec2Manager.ExtractTokenFromLines | src/main/java/com/aws/sample/Ec2Manager.java:114-120 | The backward walk's result equals TokenFromLines. |
| Ec2Manager.AuthTokenFrom | src/main/java/com/aws/sample/Ec2Manager.java:103-121 | A failed command is the error with its standard error appended. A null output throws. Otherwise the result is the token from the output. |
| Ec2Manager.GenerateDcvAuthToken | src/main/java/com/aws/sample/Ec2Manager.java:103-121 | The token command for the session and user is run on the instance, and its result is read as AuthTokenFrom says. |
| Ec2Manager.ChooseIp | src/main/java/com/aws/sample/Ec2Manager.java:132-135 | The public IP unless it is null or empty. Otherwise the private IP. |
| Ec2Manager.GenerateDcvPresignedUrlForInstance | src/main/java/com/aws/sample/Ec2Manager.java:126-139 | A missing instance is an error. Otherwise a token error propagates, or the URL carries the chosen IP, the configured port, "console" and the token. |
| Ec2Manager.InstanceUrlParts | src/main/java/com/aws/sample/Ec2Manager.java:126-139 | The instance URL reads back as the chosen IP, the configured port, the token and "console". |
| AwsConfigModel.GetProperty | src/main/java/com/aws/sample/common/AwsConfig.java:126-128 | The stored value (even an empty one) when the key is present. Otherwise the default. |
| AwsConfigModel.GetIntProperty | src/main/java/com/aws/sample/common/AwsConfig.java:130-138 | The default for a missing, empty or unparsable value. Otherwise the trimmed value read as an int. |
| AwsConfigModel.GetIntPropertyOfDecimal | src/main/java/com/aws/sample/common/AwsConfig.java:130-138 | An int written in decimal, with blank padding, reads back as itself. |
| AwsConfigModel.TrimOfPadded | src/main/java/com/aws/sample/common/AwsConfig.java:130-138 | Trimming removes blank padding around a text that has none of its own. |
| JavaText.TrimOfSlice | src/main/java/com/aws/sample/common/AwsConfig.java:104-108 | When everything outside a trimmed slice is blank, trimming gives that slice. |
| AwsConfigModel.KeepNonEmptyTrimmed | src/main/java/com/aws/sample/common/AwsConfig.java:104-108 | The kept pieces are non-empty, trimmed and no more numerous than the input, and they contain no comma when the input pieces have none. KeepNonEmptyTrimmedMembers and KeepNonEmptyTrimmedAppend state which pieces are kept and in what order. |
| AwsConfigModel.KeepNonEmptyTrimmedOne | src/main/java/com/aws/sample/common/AwsConfig.java:104-108 | One piece gives its trimmed text, or nothing when trimming leaves it empty. |
| AwsConfigModel.KeepNonEmptyTrimmedAppend | src/main/java/com/aws/sample/common/AwsConfig.java:104-108 | The pieces kept from a + b are those kept from a followed by those kept from b, so the input order is kept. |
| AwsConfigModel.KeepNonEmptyTrimmedMembers | src/main/java/com/aws/sample/common/AwsConfig.java:104-108 | A text is kept exactly when it is non-empty and some piece trims to it. |
| AwsConfigModel.KeepNonEmptyTrimmedOfDropped | src/main/java/com/aws/sample/common/AwsConfig.java:104-108 | Dropping trailing empty pieces, as `split` does, changes nothing that is kept. |
| AwsConfigModel.SecurityGroupIds | src/main/java/com/aws/sample/common/AwsConfig.java:104-108 | Every ID is non-empty, trimmed and free of commas. SecurityGroupIdsOfText states which IDs they are. |
| AwsConfigModel.SecurityGroupIdsOfText | src/main/java/com/aws/sample/common/AwsConfig.java:104-108 | The IDs are exactly the trimmed, non-empty pieces between the commas, in order. |
| AwsConfigModel.SecurityGroupIdsOfPieces | src/main/java/com/aws/sample/common/AwsConfig.java:104-108 | Any comma-free pieces, padded or empty ones included, joined with "," parse back as those pieces trimmed, with the empty ones dropped. |
| AwsConfigModel.KeepNonEmptyTrimmedOfIds | src/main/java/com/aws/sample/common/AwsConfig.java:104-108 | Pieces that are already non-empty and trimmed are kept as they are, in order. |
| AwsConfigModel.DropTrailingEmptyOfNonEmpty | src/main/java/com/aws/sample/common/AwsConfig.java:104-108 | `split` drops trailing empty pieces, which changes nothing when no piece is empty. |
| AwsConfigModel.SecurityGroupIdsOfJoin | src/main/java/com/aws/sample/common/AwsConfig.java:104-108 | Joining valid IDs with "," and parsing them gives back the same list. |
| AwsConfigModel.ParseSettings | src/main/java/com/aws/sample/common/AwsConfig.java:95-124 | Every setting comes from its key, or from its default when the key is absent. The security groups are parsed from a list and the EBS size and DCV port are read as ints. |
| AwsConfigModel.PresentKeysReachSettings | src/main/java/com/aws/sample/common/AwsConfig.java:95-124 | A present key sets its setting to its value, even an empty one, for every string setting. The security groups are parsed from the value. |
| AwsConfigModel.AbsentKeysTakeDefaults | src/main/java/com/aws/sample/common/AwsConfig.java:95-124 | For any properties, an absent key leaves its setting at its default, for each of the nineteen settings: us-east-1, t3.medium, gp3, EC2-Instance, /mnt/s3data, 50, 8443, no security groups, and "" for the rest. |
| AwsConfigModel.DefaultSettings | src/main/java/com/aws/sample/common/AwsConfig.java:95-124 | With no properties, every setting takes its default: us-east-1, t3.medium, 50 GB, port 8443 and the rest. |
| AwsConfigModel.CredentialsProviderAsWritten | src/main/java/com/aws/sample/common/AwsConfig.java:140-155 | As written, the call throws exactly when static keys are chosen and the access key is shorter than four characters. |
| AwsConfigModel.CredentialsProvider | src/main/java/com/aws/sample/common/AwsConfig.java:140-155 | An installed provider first. Then static keys when both are non-empty and neither is a "YOUR_" placeholder. Otherwise the default chain. |
| AwsConfigModel.UsesStaticKeys | src/main/java/com/aws/sample/common/AwsConfig.java:147-148 | The predicate of the static-keys branch: both keys non-empty and neither starting with "YOUR_". Null is read as "". It has no contract of its own; CredentialsProvider states what it selects. |
| AwsConfigModel.CredentialsAsWrittenAgrees | src/main/java/com/aws/sample/common/AwsConfig.java:140-155 | Whenever the as-written code does not throw, it picks what the corrected choice picks. |
| AwsConfigModel.ShortAccessKeyThrows | src/main/java/com/aws/sample/common/AwsConfig.java:149 | The usable key "AK1" makes the as-written code throw, while the corrected choice returns the static keys. |
| AwsConfigModel.AwsConfig.constructor | src/main/java/com/aws/sample/common/AwsConfig.java:65-69 | The loaded properties are kept, every setting is parsed from them, and no provider is installed. |
| AwsConfigModel.AwsConfig.ParseConfig | src/main/java/com/aws/sample/common/AwsConfig.java:95-124 | Re-parses every setting from the current properties and changes nothing else. |
| AwsConfigModel.AwsConfig.LoadProperties | src/main/java/com/aws/sample/common/AwsConfig.java:71-80 | The file's properties are added over the current ones (the file wins) and the settings are parsed again. |
| AwsConfigModel.AwsConfig.GetCredentialsProvider | src/main/java/com/aws/sample/common/AwsConfig.java:140-155 | The as-written result for the installed provider and the configured keys: it fails exactly when no provider is installed and a usable access key is shorter than four characters, and otherwise returns the choice CredentialsProvider makes. |
| AwsConfigModel.AwsConfig.SetCredentialsProvider | src/main/java/com/aws/sample/common/AwsConfig.java:160-162 | Installs the provider, and changes no setting or property. |
| AwsConfigModel.AwsConfig.SetInstanceProfile | src/main/java/com/aws/sample/common/AwsConfig.java:178 | Changes the instance profile and nothing else. |
| InstanceTypes.ToGpuInfo | src/main/java/com/aws/sample/ec2/model/InstanceTypeInfo.java:165-172 | Name and manufacturer are copied. A missing count or memory size becomes 0. |
| InstanceTypes.VCpus | src/main/java/com/aws/sample/ec2/model/InstanceTypeInfo.java:36-43 | The default vCPU count, or 0 when it or its info is missing. |
| InstanceTypes.MemoryMiB | src/main/java/com/aws/sample/ec2/model/InstanceTypeInfo.java:46-52 | The memory size, or 0 when it or its info is missing. |
| InstanceTypes.GpuList | src/main/java/com/aws/sample/ec2/model/InstanceTypeInfo.java:55-63 | No devices gives an empty list. Otherwise there is one projected device per API device, in order. |
| InstanceTypes.Architecture | src/main/java/com/aws/sample/ec2/model/InstanceTypeInfo.java:85-88 | The first supported architecture, or "未知" when the list is missing or empty. |
| InstanceTypes.Project | src/main/java/com/aws/sample/ec2/model/InstanceTypeInfo.java:32-96 | Each field comes from the API record, with 0, false, an empty list or "未知" where the record has nothing. GPU support holds exactly when devices are present. |
| InstanceTypes.EbsOptimized | src/main/java/com/aws/sample/ec2/model/InstanceTypeInfo.java:79-81 | EBS optimisation is present and its text is not "unsupported" in any letter case. It has no contract of its own; Project states its use. |
| InstanceTypes.TotalGpuCount | src/main/java/com/aws/sample/ec2/model/InstanceTypeInfo.java:121-125 | The int sum of the counts: exact when it fits, and congruent to the exact sum modulo 2^32. |
| InstanceTypes.TotalGpuMemoryMiB | src/main/java/com/aws/sample/ec2/model/InstanceTypeInfo.java:130-134 | The long sum of count × memory: exact when it fits, and congruent modulo 2^64. |
| InstanceTypes.ProductFitsInLong | src/main/java/com/aws/sample/ec2/model/InstanceTypeInfo.java:130-134 | The product of two ints never overflows a long. |
| InstanceTypes.MulAtMost | src/main/java/com/aws/sample/ec2/model/InstanceTypeInfo.java:130-134 | The product of two bounded naturals is at most the square of the bound. |
| InstanceTypes.SumCountsAppend | src/main/java/com/aws/sample/ec2/model/InstanceTypeInfo.java:121-125 | The exact count total of two device lists is the sum of their totals. |
| InstanceTypes.SumMemoryAppend | src/main/java/com/aws/sample/ec2/model/InstanceTypeInfo.java:130-134 | The exact memory total of two device lists is the sum of their totals. |
| InstanceTypes.SumCountsBoundsEach | src/main/java/com/aws/sample/ec2/model/InstanceTypeInfo.java:121-125 | With non-negative counts, the total is at least each device's count. |
| InstanceTypes.NonNegativeCounts | src/main/java/com/aws/sample/ec2/model/InstanceTypeInfo.java:121-125 | Non-negative counts give a non-negative total. |
| InstanceTypes.NoGpusNoTotals | src/main/java/com/aws/sample/ec2/model/InstanceTypeInfo.java:55-63 | An instance type without devices reports zero GPUs and zero GPU memory. |
| InstanceTypes.SingleDeviceTotals | src/main/java/com/aws/sample/ec2/model/InstanceTypeInfo.java:121-134 | With one kind of device, the totals are its count and its count × memory. |
| InstanceTypeService.FoundWithoutConstraintsKeepsAll | src/main/java/com/aws/sample/ec2/Ec2InstanceTypeService.java:342-362 | With no vCPU bounds and no GPU requirement, every type is kept. |
| InstanceTypeService.FoundNullBounds | src/main/java/com/aws/sample/ec2/Ec2InstanceTypeService.java:344-347 | A null vCPU bound does not constrain. |
| InstanceTypeService.FoundRequireGpu | src/main/java/com/aws/sample/ec2/Ec2InstanceTypeService.java:357-360 | Requiring a GPU keeps exactly the types with GPU devices. |
| InstanceTypeService.Kept | src/main/java/com/aws/sample/ec2/Ec2InstanceTypeService.java:96-98 | A filtered page is no longer than the page, and keeps everything under KeepAll. |
| InstanceTypeService.Keeps | src/main/java/com/aws/sample/ec2/Ec2InstanceTypeService.java:342-362 | The filter of each listing: all, GPU only, an inclusive vCPU range, or the optional bounds of findInstanceTypes. It has no contract of its own; FoundWithoutConstraintsKeepsAll and KeptMembers state its use. |
| InstanceTypeService.KeptMembers | src/main/java/com/aws/sample/ec2/Ec2InstanceTypeService.java:96-98 | A result is in the filtered page exactly when it is the projection of a type on the page that passes the filter. |
| InstanceTypeService.KeptAllProjects | src/main/java/com/aws/sample/ec2/Ec2InstanceTypeService.java:96-98 | Without a filter, the k-th result is the projection of the k-th type. |
| InstanceTypeService.LastPage | src/main/java/com/aws/sample/ec2/Ec2InstanceTypeService.java:88-101 | The first page without a next token, with every earlier page having one. |
| InstanceTypeService.LastPageStops | src/main/java/com/aws/sample/ec2/Ec2InstanceTypeService.java:99-100 | Up to the last page, a page has no next token exactly when it is the last page, so the loop stops there and nowhere earlier. |
| InstanceTypeService.RequestsMadeNext | src/main/java/com/aws/sample/ec2/Ec2InstanceTypeService.java:89-95 | Sending the next request of the listing keeps the requests sent so far a prefix of the listing's requests. |
| InstanceTypeService.Paginate | src/main/java/com/aws/sample/ec2/Ec2InstanceTypeService.java:84-104 | One request per page up to the first without a token, each with the filters, 100 results and the previous page's token. The result is the filtered projections of those pages, in order. |
| InstanceTypeService.CollectedMembers | src/main/java/com/aws/sample/ec2/Ec2InstanceTypeService.java:84-104 | A result is collected exactly when it projects a type that passes the filter on one of the pages. |
| InstanceTypeService.Collected | src/main/java/com/aws/sample/ec2/Ec2InstanceTypeService.java:84-104 | The kept records of every page, page after page. It has no contract of its own; CollectedMembers states it. |
| InstanceTypeService.FamilyFilters | src/main/java/com/aws/sample/ec2/Ec2InstanceTypeService.java:117-120 | The single filter "instance-type" with the value family + ".*". |
| InstanceTypeService.ListInstanceTypes | src/main/java/com/aws/sample/ec2/Ec2InstanceTypeService.java:72-135 | A null or empty family lists every type without a filter. Otherwise the requests carry the family filter. |
| InstanceTypeService.GpuListingFilters | src/main/java/com/aws/sample/ec2/Ec2InstanceTypeService.java:157-160 | The single architecture filter with x86_64 and arm64. |
| InstanceTypeService.ListGpuInstanceTypes | src/main/java/com/aws/sample/ec2/Ec2InstanceTypeService.java:141-168 | Requests carry the architecture filter, and only types with GPU devices are kept. |
| InstanceTypeService.GpuListingHasGpus | src/main/java/com/aws/sample/ec2/Ec2InstanceTypeService.java:141-168 | Every listed GPU type reports GPU support and a non-empty device list. |
| InstanceTypeService.ListFreeTierInstanceTypes | src/main/java/com/aws/sample/ec2/Ec2InstanceTypeService.java:246-270 | Requests carry the "free-tier-eligible" = "true" filter, and every returned type is kept. |
| InstanceTypeService.ListInstanceTypesByArchitecture | src/main/java/com/aws/sample/ec2/Ec2InstanceTypeService.java:277-301 | Requests carry the architecture filter for the given architecture, and every returned type is kept. |
| InstanceTypeService.FindFilters | src/main/java/com/aws/sample/ec2/Ec2InstanceTypeService.java:323-335 | No filter without an architecture. Otherwise the single architecture filter. |
| InstanceTypeService.FindInstanceTypes | src/main/java/com/aws/sample/ec2/Ec2InstanceTypeService.java:313-370 | Requests carry the architecture filter, and the vCPU bounds and the GPU requirement are applied to the results. |
| InstanceTypeService.FoundMeetsBounds | src/main/java/com/aws/sample/ec2/Ec2InstanceTypeService.java:342-362 | Every found type meets the given vCPU bounds and, when required, has GPUs. |
| InstanceTypeService.ListInstanceTypesByVCpuRangeAsWritten | src/main/java/com/aws/sample/ec2/Ec2InstanceTypeService.java:176-206 | As written, requests carry the exact-match filter default-vcpus = min, and the range is then checked on the client. |
| InstanceTypeService.ListInstanceTypesByVCpuRange | src/main/java/com/aws/sample/ec2/Ec2InstanceTypeService.java:176-206 | Corrected: no server filter, and the range min..max is checked on the client. |
| InstanceTypeService.IntToStringInjective | src/main/java/com/aws/sample/ec2/Ec2InstanceTypeService.java:182-187 | Different ints have different decimal texts. |
| InstanceTypeService.VCpuRangeMembers | src/main/java/com/aws/sample/ec2/Ec2InstanceTypeService.java:194-199 | A type is listed exactly when it is on a page and its vCPU count is within min..max. |
| InstanceTypeService.VCpuRangeAsWrittenOnlyMinimum | src/main/java/com/aws/sample/ec2/Ec2InstanceTypeService.java:182-187 | When the service honours the filter, the as-written listing returns only types with exactly min vCPUs. |
| InstanceTypeService.VCpuRangeDiscrepancy | src/main/java/com/aws/sample/ec2/Ec2InstanceTypeService.java:176-206 | For the range 2..8, a 4-vCPU type is listed by the corrected listing but not by the filtered as-written one. |
| TextractExpense.ExpenseKey | src/main/java/com/aws/sample/textract/TextractService.java:100-109 | Every recognised upper-cased type maps to one of the nine fixed result keys. |
| TextractExpense.PutSummaryField | src/main/java/com/aws/sample/textract/TextractService.java:92-117 | A summary field keeps every earlier key and keeps the map well-formed. RecognisedTypeStored and UnrecognisedTypeUnderLabel state what it stores. |
| TextractExpense.SummaryFold | src/main/java/com/aws/sample/textract/TextractService.java:92-117 | Folding the summary fields keeps the map well-formed. |
| TextractExpense.TotalInAnyCase | src/main/java/com/aws/sample/textract/TextractService.java:95-101 | A type equal to "total" ignoring letter case puts the value (or "") under 总金额. |
| TextractExpense.TaxInAnyCase | src/main/java/com/aws/sample/textract/TextractService.java:95-103 | A type equal to "tax" ignoring letter case puts the value (or "") under 税额. |
| TextractExpense.RecognisedTypeStored | src/main/java/com/aws/sample/textract/TextractService.java:95-109 | A recognised type stores the value under its fixed key and changes nothing else, even when the value is empty or missing. |
| TextractExpense.MissingTypeAndLabel | src/main/java/com/aws/sample/textract/TextractService.java:93-115 | A field without type or label falls back to the "UNKNOWN" label and is stored only when its value is non-empty. |
| TextractExpense.UnrecognisedTypeUnderLabel | src/main/java/com/aws/sample/textract/TextractService.java:110-115 | An unrecognised type leaves the map unchanged when its value or its label is empty, a missing label with an empty type included. Otherwise it stores the value under its label, or under its type when it has no label. |
| TextractExpense.LineItemTextEmpty | src/main/java/com/aws/sample/textract/TextractService.java:122-132 | A line item's text is empty exactly when every field value is empty. |
| TextractExpense.LineItemTextNoNewline | src/main/java/com/aws/sample/textract/TextractService.java:122-132 | A line item's text has no newline when no type or value has one. |
| TextractExpense.LineItemText | src/main/java/com/aws/sample/textract/TextractService.java:122-132 | "type: value \| " for each field with a non-empty value, in order. It has no contract of its own; LineItemTextEmpty and LineItemTextNoNewline state its properties. |
| TextractExpense.ItemStrings | src/main/java/com/aws/sample/textract/TextractService.java:120-134 | Only non-empty line items are collected, at most one per item. ItemStringsOne, ItemStringsAppend and ItemStringsMembers state which strings, in which order. |
| TextractExpense.ItemStringsOne | src/main/java/com/aws/sample/textract/TextractService.java:121-132 | One line item gives its LineItemText, or nothing when that text is empty. |
| TextractExpense.ItemStringsAppend | src/main/java/com/aws/sample/textract/TextractService.java:121-132 | The strings of two lists of line items are those of the first followed by those of the second: the items are visited in order, each adding its own text. |
| TextractExpense.ItemStringsMembers | src/main/java/com/aws/sample/textract/TextractService.java:121-132 | A string is collected exactly when it is the non-empty LineItemText of some line item. |
| TextractExpense.GroupItems | src/main/java/com/aws/sample/textract/TextractService.java:120-134 | Every collected line item is non-empty. |
| TextractExpense.ExpenseSummary | src/main/java/com/aws/sample/textract/TextractService.java:90-117 | The summary over all documents is well-formed. |
| TextractExpense.ExpenseLineItems | src/main/java/com/aws/sample/textract/TextractService.java:90-134 | The line items over all documents are non-empty. |
| TextractExpense.ExpenseResultLineItems | src/main/java/com/aws/sample/textract/TextractService.java:137-139 | Without line items the result is the summary. Otherwise 行项目 holds the items joined by newlines, and splitting it gives the items back. |
| TextractExpense.ExpenseResultKeys | src/main/java/com/aws/sample/textract/TextractService.java:90-139 | Every result key is a fixed key, a field label or 行项目. |
| TextractExpense.ExpenseResult | src/main/java/com/aws/sample/textract/TextractService.java:90-139 | The summary map with the line items joined by newlines under their key. It has no contract of its own; ExpenseResultLineItems and ExpenseResultKeys state its properties. |
| TextractExpense.AddSummaryFields | src/main/java/com/aws/sample/textract/TextractService.java:92-117 | The loop over the summary fields computes SummaryFold. |
| TextractExpense.BuildLineItem | src/main/java/com/aws/sample/textract/TextractService.java:122-132 | The loop over a line item's fields computes LineItemText. |
| TextractExpense.CollectItemStrings | src/main/java/com/aws/sample/textract/TextractService.java:121-133 | The loop over one group's line items keeps exactly the non-empty line-item strings, in order (ItemStrings). |
| TextractExpense.CollectLineItems | src/main/java/com/aws/sample/textract/TextractService.java:120-134 | The loop over the groups and items computes GroupItems. |
| TextractExpense.AnalyzeExpenseDocument | src/main/java/com/aws/sample/textract/TextractService.java:73-143 | The whole analysis computes ExpenseResult. |
| TextractExpense.Merged | src/main/java/com/aws/sample/textract/TextractService.java:311-318 | The OCR entries are never overwritten. A key is in the result exactly when it is in the OCR result or has a non-empty expense value, and a new key carries the expense value. |
| TextractExpense.MergeInvoiceResults | src/main/java/com/aws/sample/textract/TextractService.java:311-321 | A failed expense analysis leaves the OCR result. Otherwise the result is Merged. |
| TextractForms.BlockIndex | src/main/java/com/aws/sample/textract/TextractService.java:169-171 | Each ID maps to a block with that ID. |
| TextractForms.BlockIndexLast | src/main/java/com/aws/sample/textract/TextractService.java:169-171 | An ID is in the map exactly when some block has it, and the block stored is the last block with that ID. |
| TextractForms.BuildBlockMap | src/main/java/com/aws/sample/textract/TextractService.java:169-171 | The loop computes BlockIndex. |
| TextractForms.ChildrenTextAppend | src/main/java/com/aws/sample/textract/TextractService.java:214-219 | The text of two ID lists is the text of each, in order. |
| TextractForms.ChildrenText | src/main/java/com/aws/sample/textract/TextractService.java:214-219 | The resolved WORD texts of the child IDs, each followed by a space, in order. It has no contract of its own; ChildrenTextAppend, SkipsUnresolved and ResolvedChildren state its properties. |
| TextractForms.SkipsUnresolved | src/main/java/com/aws/sample/textract/TextractService.java:216-218 | An ID with no block or no text contributes nothing. |
| TextractForms.ResolvedChildren | src/main/java/com/aws/sample/textract/TextractService.java:216-218 | A child with text contributes its text and a space. |
| TextractForms.OtherTypesIgnored | src/main/java/com/aws/sample/textract/TextractService.java:213 | Relationships of another type contribute nothing. |
| TextractForms.AppendChildrenText | src/main/java/com/aws/sample/textract/TextractService.java:214-219 | The inner loop appends exactly the text of the child IDs to what was there. |
| TextractForms.GetTextFromRelationships | src/main/java/com/aws/sample/textract/TextractService.java:209-224 | The nested loops compute TextFromRelationships. |
| TextractForms.TextFromRelationships | src/main/java/com/aws/sample/textract/TextractService.java:209-224 | The children text of every relationship of the given type, in order. It has no contract of its own; OtherTypesIgnored states its property and GetTextFromRelationships computes it. |
| TextractForms.FormPairsMembers | src/main/java/com/aws/sample/textract/TextractService.java:174-200 | A key is in the result exactly when some KEY block has a non-empty text that trims to it. |
| TextractForms.FormPairsTrimmed | src/main/java/com/aws/sample/textract/TextractService.java:196-198 | Every stored key and value is trimmed. |
| TextractForms.FormPairs | src/main/java/com/aws/sample/textract/TextractService.java:174-200 | Trimmed key text to trimmed value text for every KEY_VALUE_SET block with the KEY entity type, a later key winning. It has no contract of its own; FormPairsMembers, FormPairsValue, FormPairsTrimmed and OnlyKeyBlocksCount state its properties. |
| TextractForms.FormPairsValue | src/main/java/com/aws/sample/textract/TextractService.java:174-200 | A stored key carries the trimmed value text of the last block that stores it: some block stores the key, the entry is that block's trimmed ValueText, and no later block stores the same key. |
| TextractForms.OnlyKeyBlocksCount | src/main/java/com/aws/sample/textract/TextractService.java:175-177 | Blocks that are not KEY_VALUE_SET blocks with entity KEY produce no pairs. |
| TextractForms.FindValue | src/main/java/com/aws/sample/textract/TextractService.java:183-194 | The value loop computes ValueText: the last resolved VALUE block's text wins. |
| TextractForms.ValueText | src/main/java/com/aws/sample/textract/TextractService.java:183-194 | The child text of the last resolved VALUE block, or "". It has no contract of its own; FindValue computes it. |
| TextractForms.AnalyzeDocumentForms | src/main/java/com/aws/sample/textract/TextractService.java:150-204 | The whole analysis computes FormPairs. |
| BedrockLlm.ParseImageFormatCases | src/main/java/com/aws/sample/bedrock/BedrockLlmService.java:241-250 | JPEG, GIF and WEBP are chosen exactly by their names in any letter case. Null and anything else gives PNG. |
| BedrockLlm.ParseImageFormat | src/main/java/com/aws/sample/bedrock/BedrockLlmService.java:241-250 | The format name compared ignoring case; PNG for any other name and for null. It has no contract of its own; ParseImageFormatCases states it. |
| BedrockLlm.EndsWithLast | src/main/java/com/aws/sample/bedrock/BedrockLlmService.java:211-220 | A text that ends in a suffix ends in its last character. |
| BedrockLlm.ImageFormatOfNameCases | src/main/java/com/aws/sample/bedrock/BedrockLlmService.java:213-220 | Each image format is chosen exactly by its own extensions. |
| BedrockLlm.ImageFormatOfName | src/main/java/com/aws/sample/bedrock/BedrockLlmService.java:213-220 | The format by the extension of the lower-cased name; PNG for any other. It has no contract of its own; ImageFormatOfNameCases states it. |
| BedrockLlm.IsPdfPath | src/main/java/com/aws/sample/bedrock/BedrockLlmService.java:169-171 | The path, lower-cased, ends in ".pdf". It has no contract of its own; FileContentBlock states what it selects. |
| BedrockLlm.FileName | src/main/java/com/aws/sample/bedrock/BedrockLlmService.java:185 | The file name is a suffix of the path and holds no '/'. |
| BedrockLlm.ReplaceAtEnd | src/main/java/com/aws/sample/bedrock/BedrockLlmService.java:191 | A target that can only occur at the end is removed exactly when the text ends in it. |
| BedrockLlm.DocumentNameStripsExtension | src/main/java/com/aws/sample/bedrock/BedrockLlmService.java:191 | A name whose only dot begins ".pdf" or ".PDF" loses the extension. |
| BedrockLlm.DocumentNameKeepsMixedCase | src/main/java/com/aws/sample/bedrock/BedrockLlmService.java:168-191 | "x.Pdf" is sent as a document, but its name keeps the extension. |
| BedrockLlm.DocumentName | src/main/java/com/aws/sample/bedrock/BedrockLlmService.java:191 | Every ".pdf" and then every ".PDF" removed from the file name. It has no contract of its own; DocumentNameStripsExtension and DocumentNameKeepsMixedCase state its properties. |
| BedrockLlm.FileContentBlock | src/main/java/com/aws/sample/bedrock/BedrockLlmService.java:168-236 | A block exists exactly when the file is readable. It is a PDF document block for a ".pdf" path in any case, and an image block otherwise. |
| BedrockLlm.ChatContent | src/main/java/com/aws/sample/bedrock/BedrockLlmService.java:76-91 | One or two blocks, with the text last. The file block comes first exactly when a non-empty path is given and readable. |
| BedrockLlm.ContentTextAppend | src/main/java/com/aws/sample/bedrock/BedrockLlmService.java:261-265 | The text of two block lists is the text of each, in order. |
| BedrockLlm.ContentTextWithoutText | src/main/java/com/aws/sample/bedrock/BedrockLlmService.java:261-265 | Blocks without text add nothing. |
| BedrockLlm.ContentText | src/main/java/com/aws/sample/bedrock/BedrockLlmService.java:261-265 | The text blocks' texts concatenated in order. It has no contract of its own; ContentTextAppend and ContentTextWithoutText state its properties. |
| BedrockLlm.ResponseText | src/main/java/com/aws/sample/bedrock/BedrockLlmService.java:256-258 | No output or no message gives "". |
| BedrockLlm.ExtractResponseText | src/main/java/com/aws/sample/bedrock/BedrockLlmService.java:255-276 | The loop computes ResponseText. |
| PolicyValidation.DepthCounts | src/test/java/com/aws/sample/PolicyValidationTest.java:344-351 | The brace depth is the number of '{' minus the number of '}'. |
| PolicyValidation.ScanEnd | src/test/java/com/aws/sample/PolicyValidationTest.java:344-351 | The scan stops at the first balance point, or at the end. Every earlier prefix has positive depth. |
| PolicyValidation.BraceStart | src/test/java/com/aws/sample/PolicyValidationTest.java:331-341 | A missing marker is MarkerMissing, and no '{' after it is FormatError. Otherwise the result is the first '{' after the marker. |
| PolicyValidation.PolicyDocumentOf | src/test/java/com/aws/sample/PolicyValidationTest.java:329-354 | The errors are those of BraceStart. A result starts with '{'. |
| PolicyValidation.PolicyDocumentShape | src/test/java/com/aws/sample/PolicyValidationTest.java:329-354 | The document is a slice from the brace. Every proper prefix has more '{' than '}'. It either balances or runs to the end of the content. |
| PolicyValidation.EmptyPolicyDocument | src/test/java/com/aws/sample/PolicyValidationTest.java:329-354 | The marker followed by " {}" gives "{}". |
| PolicyValidation.MatchBraces | src/test/java/com/aws/sample/PolicyValidationTest.java:344-351 | The loop stops where ScanEnd says. |
| PolicyValidation.ExtractPolicyDocument | src/test/java/com/aws/sample/PolicyValidationTest.java:329-354 | The method computes PolicyDocumentOf. |
| PolicyValidation.IsAccessDeniedOccurs | src/test/java/com/aws/sample/PolicyValidationTest.java:318-324 | Access is denied exactly when the code holds "UnauthorizedOperation" or "AccessDenied", or the message holds "not authorized". |
| PolicyValidation.IsAccessDenied | src/test/java/com/aws/sample/PolicyValidationTest.java:318-324 | The code contains "UnauthorizedOperation" or "AccessDenied", or the message contains "not authorized". It has no contract of its own; IsAccessDeniedOccurs states it by occurrence. |
| PolicyValidation.PrefixedCodeIsDenied | src/test/java/com/aws/sample/PolicyValidationTest.java:318-324 | A prefixed code such as "Client.UnauthorizedOperation" is recognised. |

## Left out

- Reading configuration and documents from disk, logging and `System.out` output are left out. The model starts from the loaded properties and from the file bytes given by `readFile`.
- The AWS SDK clients are left out: EC2, SSM, SageMaker, Textract and Bedrock requests and their waiting. Their responses are inputs: pages, blocks, command results and Converse responses. The calls `converse`, `analyzeDocument` (plain text), `getInstanceTypeInfo`, `getInstanceTypeInfoBatch` and the SageMaker schedule/job operations only forward to the SDK.
- `chatWithBase64Image` is left out. It decodes Base64, which is not part of this model.
- Floating point is left out:
  - `memorySizeGiB` of InstanceTypeInfo;
  - `listInstanceTypesByMemoryRange`;
  - the memory bounds of `findInstanceTypes`;
  - the regular-expression and `Double` parsing part of `analyzeChineseInvoice`.
- InstanceTypeService.Paginate: the page sequence must contain a page without a next token. An endless listing is not modelled.
- InstanceTypeService.FindInstanceTypes: the result is stated without the memory bounds, which are floating point.
- JavaText: case mapping (`toUpperCase`, `toLowerCase`, `equalsIgnoreCase`) covers ASCII letters only.
- JavaText: case mapping ignores the default locale. Java's `toLowerCase()` and `toUpperCase()` without arguments follow it. Under a Turkish or Azerbaijani locale, "GIF".toLowerCase() gives a dotless ı, and "invoice_receipt_id".toUpperCase() gives a dotted İ. ParseImageFormat, ImageFormatOfName, IsPdfPath and PutSummaryField behave as under a locale without special rules, such as `Locale.ROOT`.
- JavaText: string lengths and indices count Unicode scalar values, not UTF-16 code units. AwsConfigModel.CredentialsProviderAsWritten compares the access key's length with 4 in scalar values. Java's `substring(0, 4)` counts code units, so a key of two characters outside the Basic Multilingual Plane, such as two emoji, does not throw in Java but gives Err in the model.
- JavaText.ParseInt: accepts ASCII digits only. Java's `Integer.parseInt` also accepts the decimal digits of other scripts, such as Arabic-Indic or Devanagari digits, which the model reads as not a number.
- DcvService.PresignedUrl: the port is written with ASCII digits, as `%d` formats under a locale such as `Locale.ROOT`. `String.format` without a locale uses the default format locale, whose digits may differ: under `fa-IR` or `th-TH-u-nu-thai` port 8443 comes out in Persian or Thai digits.
- DcvService.PresignedUrlWithConfiguredPort: the same ASCII-digit port as PresignedUrl; the default format locale is not modelled.
- Ec2Manager.GenerateDcvPresignedUrlForInstance: the URL comes from PresignedUrl, so its port is in ASCII digits whatever the default format locale.
- MonitoringConfigModel.DailySchedule: the hour is written with ASCII digits, as `%d` formats under a locale such as `Locale.ROOT`. Under a default format locale with other digits, such as `fa-IR`, Java's `cron(0 %d ? * * *)` carries those digits instead.
- MonitoringConfigModel.MonitoringConfigBuilder.DailyScheduleAt: sets DailySchedule's expression, so the hour is in ASCII digits whatever the default format locale.
- Null map keys and values are not modelled. Nulls inside Textract and Bedrock responses are modelled only where the code tests for them.
- A null error code or message in `isAccessDenied` is not modelled. The Java code would throw on it.
- BedrockLlm.FileName: `Path.getFileName` on a path ending in '/' is modelled as the empty name. The path normalisation of `java.nio` is left out.
- The builder setters return nothing. Java's `return this` chaining is the same object, so each call modifies the builder's one configuration.
- A caller-installed credentials provider is an opaque handle. Its behaviour is not modelled.
- `HashMap` iteration order is not modelled. The merge of invoice results does not depend on it, because it never overwrites a key.

## Findings

| source | as written | input that shows it | evidently intended | confidence | as-written member | corrected member |
|---|---|---|---|---|---|---|
| src/main/java/com/aws/sample/sagemaker/SageMakerImageService.java:182-188 | The HuggingFace training tag leads with the transformers version, and the PyTorch version argument is unused. | transformers 4.28.1, PyTorch 2.0.0, py310, GPU: tag "4.28.1-transformers4.28.1-gpu-py310" | The tag leads with the PyTorch version, as in the inference image ("2.0.0-transformers4.28.1-gpu-py310"). | not executed | SageMakerImages.HuggingFaceTrainingDiscrepancy | SageMakerImages.HuggingFaceTrainingImageIntended |
| src/main/java/com/aws/sample/common/AwsConfig.java:149 | The log line takes `accessKeyId.substring(0, 4)` before returning static credentials. | Access key "AK1" with secret "secret": StringIndexOutOfBoundsException | The static keys are returned for any usable key. | not executed | AwsConfigModel.ShortAccessKeyThrows | AwsConfigModel.CredentialsProvider |
| src/main/java/com/aws/sample/ec2/Ec2InstanceTypeService.java:182-187 | The request filters `vcpu-info.default-vcpus` on the single value `minVCpus`, which is an exact match. | Range 2..8 with a 4-vCPU type: the filtered service never returns it. | Every type with min..max vCPUs is listed. | not executed | InstanceTypeService.VCpuRangeDiscrepancy | InstanceTypeService.ListInstanceTypesByVCpuRange |
