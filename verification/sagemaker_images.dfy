/**
 * ECR image URIs for SageMaker: deep-learning containers (DLC), the built-in
 * algorithm images, and the parts shared with the Model Monitor image.
 *
 * Every URI has the shape `{account}.dkr.ecr.{region}.amazonaws.com[.cn]/{repository}:{tag}`.
 * The region is an explicit parameter (the service reads it from its configuration).
 */
module SageMakerImages {
  import opened Values
  import opened JavaText

  /** The fourteen regions listed in both account tables. */
  const ListedRegions: set<string> := {
    "us-east-1", "us-east-2", "us-west-1", "us-west-2", "eu-west-1", "eu-west-2",
    "eu-central-1", "ap-northeast-1", "ap-northeast-2", "ap-southeast-1",
    "ap-southeast-2", "ap-south-1", "cn-north-1", "cn-northwest-1"
  }

  /** Account used for DLC images outside China, and for any unlisted region. */
  const DLC_DEFAULT_ACCOUNT: string := "763104351884"
  /** Account used for DLC images in the two China regions. */
  const DLC_CHINA_ACCOUNT: string := "727897471807"
  /** Built-in algorithm account used for any region missing from the table. */
  const BUILT_IN_DEFAULT_ACCOUNT: string := "811284229777"

  /** Built-in algorithm image accounts, per region. */
  const BuiltInAccounts: map<string, string> := map[
    "us-east-1" := "811284229777",
    "us-east-2" := "825641698319",
    "us-west-1" := "632365934929",
    "us-west-2" := "433757028032",
    "eu-west-1" := "685385470294",
    "eu-west-2" := "644912444149",
    "eu-central-1" := "813361260812",
    "ap-northeast-1" := "501404015308",
    "ap-northeast-2" := "306986355934",
    "ap-southeast-1" := "475088953585",
    "ap-southeast-2" := "544295431143",
    "ap-south-1" := "991648021394",
    "cn-north-1" := "390948362332",
    "cn-northwest-1" := "387376663083"
  ]

  /** DLC image accounts, per region. */
  const DlcAccounts: map<string, string> := map[
    "us-east-1" := "763104351884",
    "us-east-2" := "763104351884",
    "us-west-1" := "763104351884",
    "us-west-2" := "763104351884",
    "eu-west-1" := "763104351884",
    "eu-west-2" := "763104351884",
    "eu-central-1" := "763104351884",
    "ap-northeast-1" := "763104351884",
    "ap-northeast-2" := "763104351884",
    "ap-southeast-1" := "763104351884",
    "ap-southeast-2" := "763104351884",
    "ap-south-1" := "763104351884",
    "cn-north-1" := "727897471807",
    "cn-northwest-1" := "727897471807"
  ]

  /** An AWS account ID: twelve decimal digits. */
  predicate IsAccountId(a: string) {
    |a| == 12 && AllDigits(a)
  }

  /** The China partition is selected by the "cn-" region prefix. */
  predicate IsChinaRegion(region: string) {
    StartsWith(region, "cn-")
  }

  lemma AccountTablesCoverListedRegions()
    ensures BuiltInAccounts.Keys == ListedRegions
    ensures DlcAccounts.Keys == ListedRegions
  {
  }

  /**
   * `getEcrDomain`: "dkr.ecr." + region + ".amazonaws.com", with a further ".cn"
   * exactly for China regions.
   */
  function EcrDomain(region: string): (r: string)
    ensures StartsWith(r, "dkr.ecr." + region)
    ensures IsChinaRegion(region) ==>
      EndsWith(r, ".amazonaws.com.cn") && |r| == |"dkr.ecr." + region| + |".amazonaws.com.cn"|
    ensures !IsChinaRegion(region) ==>
      EndsWith(r, ".amazonaws.com") && !EndsWith(r, ".amazonaws.com.cn")
      && |r| == |"dkr.ecr." + region| + |".amazonaws.com"|
  {
    if IsChinaRegion(region) then
      "dkr.ecr." + region + ".amazonaws.com.cn"
    else
      var r := "dkr.ecr." + region + ".amazonaws.com";
      assert r[|r| - 1] == 'm';
      r
  }

  /**
   * `getDLCAccountId`: the table entry, or 763104351884 for an unlisted region;
   * in effect 727897471807 for the two China regions and 763104351884 everywhere else.
   */
  function DlcAccountId(region: string): (r: string)
    ensures r == (if region == "cn-north-1" || region == "cn-northwest-1"
                  then DLC_CHINA_ACCOUNT else DLC_DEFAULT_ACCOUNT)
    ensures IsAccountId(r)
  {
    if region in DlcAccounts then DlcAccounts[region] else DLC_DEFAULT_ACCOUNT
  }

  /** `getBuiltInAlgorithmAccountId`: the table entry, or 811284229777 for an unlisted region. */
  function BuiltInAccountId(region: string): (r: string)
    ensures region !in ListedRegions ==> r == BUILT_IN_DEFAULT_ACCOUNT
    ensures region in ListedRegions ==> r == BuiltInAccounts[region]
    ensures IsAccountId(r)
  {
    BuiltInAccountsFirstHalf();
    BuiltInAccountsSecondHalf();
    if region in BuiltInAccounts then BuiltInAccounts[region] else BUILT_IN_DEFAULT_ACCOUNT
  }

  /** The first seven entries of the built-in table are account IDs. */
  lemma BuiltInAccountsFirstHalf()
    ensures IsAccountId("811284229777") && IsAccountId("825641698319") && IsAccountId("632365934929")
    ensures IsAccountId("433757028032") && IsAccountId("685385470294") && IsAccountId("644912444149")
    ensures IsAccountId("813361260812")
  {
  }

  /** The other seven entries of the built-in table are account IDs. */
  lemma BuiltInAccountsSecondHalf()
    ensures IsAccountId("501404015308") && IsAccountId("306986355934") && IsAccountId("475088953585")
    ensures IsAccountId("544295431143") && IsAccountId("991648021394") && IsAccountId("390948362332")
    ensures IsAccountId("387376663083")
  {
  }

  /** The device part of a framework tag. */
  function DeviceName(useGpu: bool): string {
    if useGpu then "gpu" else "cpu"
  }

  /** version + "-" + device + "-" + pythonVersion, shared by PyTorch, TensorFlow and MXNet. */
  function FrameworkTag(version: string, pythonVersion: string, useGpu: bool): string {
    version + "-" + DeviceName(useGpu) + "-" + pythonVersion
  }

  /** `String.format("%s.%s/%s:%s", account, domain, repository, tag)` */
  function ImageUri(account: string, domain: string, repository: string, tag: string): string {
    account + "." + domain + "/" + repository + ":" + tag
  }

  /** `getDLCImage`: repository framework + "-" + jobType in the region's DLC account. */
  function DlcImage(region: string, framework: string, jobType: string, tag: string): string {
    ImageUri(DlcAccountId(region), EcrDomain(region), framework + "-" + jobType, tag)
  }

  /** `getBuiltInAlgorithmImage`: repository "sagemaker-" + algorithm in the built-in account. */
  function BuiltInAlgorithmImage(region: string, algorithm: string, tag: string): string {
    ImageUri(BuiltInAccountId(region), EcrDomain(region), "sagemaker-" + algorithm, tag)
  }

  // ---------------------------------------------------------------------------
  // The framework-specific builders, each written as the source writes it and
  // shown equal to the generic builder with its repository filled in.
  // ---------------------------------------------------------------------------

  function PyTorchTrainingImage(region: string, version: string, pythonVersion: string, useGpu: bool): (r: string)
    ensures r == DlcImage(region, "pytorch", "training", FrameworkTag(version, pythonVersion, useGpu))
  {
    ImageUri(DlcAccountId(region), EcrDomain(region), "pytorch-training", FrameworkTag(version, pythonVersion, useGpu))
  }

  function PyTorchInferenceImage(region: string, version: string, pythonVersion: string, useGpu: bool): (r: string)
    ensures r == DlcImage(region, "pytorch", "inference", FrameworkTag(version, pythonVersion, useGpu))
  {
    ImageUri(DlcAccountId(region), EcrDomain(region), "pytorch-inference", FrameworkTag(version, pythonVersion, useGpu))
  }

  function TensorFlowTrainingImage(region: string, version: string, pythonVersion: string, useGpu: bool): (r: string)
    ensures r == DlcImage(region, "tensorflow", "training", FrameworkTag(version, pythonVersion, useGpu))
  {
    ImageUri(DlcAccountId(region), EcrDomain(region), "tensorflow-training", FrameworkTag(version, pythonVersion, useGpu))
  }

  function TensorFlowInferenceImage(region: string, version: string, pythonVersion: string, useGpu: bool): (r: string)
    ensures r == DlcImage(region, "tensorflow", "inference", FrameworkTag(version, pythonVersion, useGpu))
  {
    ImageUri(DlcAccountId(region), EcrDomain(region), "tensorflow-inference", FrameworkTag(version, pythonVersion, useGpu))
  }

  function MXNetTrainingImage(region: string, version: string, pythonVersion: string, useGpu: bool): (r: string)
    ensures r == DlcImage(region, "mxnet", "training", FrameworkTag(version, pythonVersion, useGpu))
  {
    ImageUri(DlcAccountId(region), EcrDomain(region), "mxnet-training", FrameworkTag(version, pythonVersion, useGpu))
  }

  function MXNetInferenceImage(region: string, version: string, pythonVersion: string, useGpu: bool): (r: string)
    ensures r == DlcImage(region, "mxnet", "inference", FrameworkTag(version, pythonVersion, useGpu))
  {
    ImageUri(DlcAccountId(region), EcrDomain(region), "mxnet-inference", FrameworkTag(version, pythonVersion, useGpu))
  }

  /** The HuggingFace tag: lead version + "-transformers" + transformers version + device + python. */
  function HuggingFaceTag(leadVersion: string, transformersVersion: string, pythonVersion: string, useGpu: bool): string {
    leadVersion + "-transformers" + transformersVersion + "-" + DeviceName(useGpu) + "-" + pythonVersion
  }

  /** The two HuggingFace repository names, as framework "-" job type. */
  lemma HuggingFaceRepositories()
    ensures "huggingface-pytorch" + "-" + "training" == "huggingface-pytorch-training"
    ensures "huggingface-pytorch" + "-" + "inference" == "huggingface-pytorch-inference"
  {
  }

  /**
   * `getHuggingFaceTrainingImage` as written: the tag leads with the transformers
   * version, and the PyTorch version argument is never read.
   */
  function HuggingFaceTrainingImage(region: string, transformersVersion: string, pytorchVersion: string,
                                    pythonVersion: string, useGpu: bool): (r: string)
    ensures r == DlcImage(region, "huggingface-pytorch", "training",
                          HuggingFaceTag(transformersVersion, transformersVersion, pythonVersion, useGpu))
  {
    HuggingFaceRepositories();
    var tag := transformersVersion + "-transformers" + transformersVersion + "-" + DeviceName(useGpu) + "-" + pythonVersion;
    ImageUri(DlcAccountId(region), EcrDomain(region), "huggingface-pytorch-training", tag)
  }

  /** `getHuggingFaceInferenceImage`: the tag leads with the PyTorch version. */
  function HuggingFaceInferenceImage(region: string, transformersVersion: string, pytorchVersion: string,
                                     pythonVersion: string, useGpu: bool): (r: string)
    ensures r == DlcImage(region, "huggingface-pytorch", "inference",
                          HuggingFaceTag(pytorchVersion, transformersVersion, pythonVersion, useGpu))
  {
    HuggingFaceRepositories();
    var tag := pytorchVersion + "-transformers" + transformersVersion + "-" + DeviceName(useGpu) + "-" + pythonVersion;
    ImageUri(DlcAccountId(region), EcrDomain(region), "huggingface-pytorch-inference", tag)
  }

  /** The training image as evidently intended: tagged like the inference image. */
  function HuggingFaceTrainingImageIntended(region: string, transformersVersion: string, pytorchVersion: string,
                                            pythonVersion: string, useGpu: bool): (r: string)
    ensures r == DlcImage(region, "huggingface-pytorch", "training",
                          HuggingFaceTag(pytorchVersion, transformersVersion, pythonVersion, useGpu))
  {
    HuggingFaceRepositories();
    var tag := pytorchVersion + "-transformers" + transformersVersion + "-" + DeviceName(useGpu) + "-" + pythonVersion;
    ImageUri(DlcAccountId(region), EcrDomain(region), "huggingface-pytorch-training", tag)
  }

  /** `getXGBoostImage`: the built-in "xgboost" algorithm image. */
  function XGBoostImage(region: string, version: string): (r: string)
    ensures r == BuiltInAlgorithmImage(region, "xgboost", version)
  {
    ImageUri(BuiltInAccountId(region), EcrDomain(region), "sagemaker-xgboost", version)
  }

  /** `getSklearnImage`: the built-in "scikit-learn" image tagged version + "-" + pythonVersion. */
  function SklearnImage(region: string, version: string, pythonVersion: string): (r: string)
    ensures r == BuiltInAlgorithmImage(region, "scikit-learn", version + "-" + pythonVersion)
  {
    ImageUri(BuiltInAccountId(region), EcrDomain(region), "sagemaker-scikit-learn", version + "-" + pythonVersion)
  }

  // ---------------------------------------------------------------------------
  // Reading a URI back
  // ---------------------------------------------------------------------------

  /** The four parts of `{account}.{domain}/{repository}:{tag}`. */
  datatype ImageRef = ImageRef(account: string, domain: string, repository: string, tag: string)

  /** Parts that the separators cannot be confused with. */
  predicate Unambiguous(ref: ImageRef) {
    '.' !in ref.account && '/' !in ref.domain && ':' !in ref.repository
  }

  /** Reads the account, domain, repository and tag back out of an image URI. */
  function ParseImageUri(uri: string): Option<ImageRef> {
    match SplitAtFirst(uri, '.')
    case None => None
    case Some((account, rest)) =>
      match SplitAtFirst(rest, '/')
      case None => None
      case Some((domain, path)) =>
        match SplitAtFirst(path, ':')
        case None => None
        case Some((repository, tag)) => Some(ImageRef(account, domain, repository, tag))
  }

  /** A URI built from unambiguous parts determines those parts. */
  lemma ParseImageUriRoundTrip(ref: ImageRef)
    requires Unambiguous(ref)
    ensures ParseImageUri(ImageUri(ref.account, ref.domain, ref.repository, ref.tag)) == Some(ref)
  {
    var path := ref.repository + [':'] + ref.tag;
    var rest := ref.domain + ['/'] + path;
    assert ImageUri(ref.account, ref.domain, ref.repository, ref.tag) == ref.account + ['.'] + rest;
    SplitAtFirstOf(ref.account, '.', rest);
    SplitAtFirstOf(ref.domain, '/', path);
    SplitAtFirstOf(ref.repository, ':', ref.tag);
  }

  /** A region without '/' gives an ECR domain without '/'. */
  lemma EcrDomainHasNoSlash(region: string)
    requires '/' !in region
    ensures '/' !in EcrDomain(region)
  {
    var domain := EcrDomain(region);
    if IsChinaRegion(region) {
      assert domain == "dkr.ecr." + region + ".amazonaws.com.cn";
    } else {
      assert domain == "dkr.ecr." + region + ".amazonaws.com";
    }
  }

  /**
   * The account and domain of every DLC URI can be read back: the account is the
   * region's DLC account and the domain is the region's ECR domain.
   */
  lemma DlcImageParts(region: string, framework: string, jobType: string, tag: string)
    requires '/' !in region && ':' !in framework + "-" + jobType
    ensures ParseImageUri(DlcImage(region, framework, jobType, tag))
            == Some(ImageRef(DlcAccountId(region), EcrDomain(region), framework + "-" + jobType, tag))
  {
    EcrDomainHasNoSlash(region);
    ParseImageUriRoundTrip(ImageRef(DlcAccountId(region), EcrDomain(region), framework + "-" + jobType, tag));
  }

  /**
   * The same for built-in algorithm URIs: the region's built-in account, its ECR domain
   * and repository "sagemaker-" + algorithm.
   */
  lemma BuiltInImageParts(region: string, algorithm: string, tag: string)
    requires '/' !in region && ':' !in algorithm
    ensures ParseImageUri(BuiltInAlgorithmImage(region, algorithm, tag))
            == Some(ImageRef(BuiltInAccountId(region), EcrDomain(region), "sagemaker-" + algorithm, tag))
  {
    EcrDomainHasNoSlash(region);
    assert ':' !in "sagemaker-" + algorithm;
    ParseImageUriRoundTrip(ImageRef(BuiltInAccountId(region), EcrDomain(region), "sagemaker-" + algorithm, tag));
  }

  lemma UsEast1Domain()
    ensures EcrDomain("us-east-1") == "dkr.ecr.us-east-1.amazonaws.com"
  {
    assert !IsChinaRegion("us-east-1") by { assert "us-east-1"[0] == 'u'; }
  }

  /**
   * The example documented for the service: PyTorch 2.0.1 training on GPU with Python 3.10
   * in us-east-1 is "763104351884.dkr.ecr.us-east-1.amazonaws.com/pytorch-training:2.0.1-gpu-py310".
   */
  lemma PyTorchTrainingExample()
    ensures PyTorchTrainingImage("us-east-1", "2.0.1", "py310", true)
         == "763104351884.dkr.ecr.us-east-1.amazonaws.com/pytorch-training:2.0.1-gpu-py310"
  {
    assert DlcAccountId("us-east-1") == "763104351884";
    assert FrameworkTag("2.0.1", "py310", true) == "2.0.1-gpu-py310";
    UsEast1Domain();
    assert PyTorchTrainingImage("us-east-1", "2.0.1", "py310", true)
        == ImageUri("763104351884", "dkr.ecr.us-east-1.amazonaws.com", "pytorch-training", "2.0.1-gpu-py310");
    PyTorchTrainingUri();
  }

  /** The pieces of the example URI put together, in three steps. */
  lemma PyTorchTrainingUri()
    ensures ImageUri("763104351884", "dkr.ecr.us-east-1.amazonaws.com", "pytorch-training", "2.0.1-gpu-py310")
         == "763104351884.dkr.ecr.us-east-1.amazonaws.com/pytorch-training:2.0.1-gpu-py310"
  {
    PyTorchUriHost();
    PyTorchUriRepository();
    PyTorchUriTag();
  }

  lemma PyTorchUriHost()
    ensures "763104351884" + "." + "dkr.ecr.us-east-1.amazonaws.com" == "763104351884.dkr.ecr.us-east-1.amazonaws.com"
  {
    assert "763104351884" + "." == "763104351884.";
  }

  lemma PyTorchUriRepository()
    ensures "763104351884.dkr.ecr.us-east-1.amazonaws.com" + "/" + "pytorch-training"
         == "763104351884.dkr.ecr.us-east-1.amazonaws.com/pytorch-training"
  {
    assert "763104351884.dkr.ecr.us-east-1.amazonaws.com" + "/" == "763104351884.dkr.ecr.us-east-1.amazonaws.com/";
  }

  lemma PyTorchUriTag()
    ensures "763104351884.dkr.ecr.us-east-1.amazonaws.com/pytorch-training" + ":" + "2.0.1-gpu-py310"
         == "763104351884.dkr.ecr.us-east-1.amazonaws.com/pytorch-training:2.0.1-gpu-py310"
  {
    assert "763104351884.dkr.ecr.us-east-1.amazonaws.com/pytorch-training" + ":"
        == "763104351884.dkr.ecr.us-east-1.amazonaws.com/pytorch-training:";
  }

  /** As written, the training tag does not depend on the PyTorch version. */
  lemma HuggingFaceTrainingIgnoresPyTorchVersion(region: string, transformersVersion: string,
                                                 pytorch1: string, pytorch2: string,
                                                 pythonVersion: string, useGpu: bool)
    ensures HuggingFaceTrainingImage(region, transformersVersion, pytorch1, pythonVersion, useGpu)
         == HuggingFaceTrainingImage(region, transformersVersion, pytorch2, pythonVersion, useGpu)
  {
  }

  /**
   * Transformers 4.28.1 with PyTorch 2.0.0: the as-written training image is tagged
   * "4.28.1-transformers4.28.1-…", the intended one "2.0.0-transformers4.28.1-…".
   */
  lemma HuggingFaceTrainingDiscrepancy()
    ensures HuggingFaceTrainingImage("us-east-1", "4.28.1", "2.0.0", "py310", true)
         != HuggingFaceTrainingImageIntended("us-east-1", "4.28.1", "2.0.0", "py310", true)
  {
    var asWritten := HuggingFaceTag("4.28.1", "4.28.1", "py310", true);
    var intended := HuggingFaceTag("2.0.0", "4.28.1", "py310", true);
    HuggingFaceTrainingImageParts("us-east-1", asWritten);
    HuggingFaceTrainingImageParts("us-east-1", intended);
    assert asWritten[0] == '4' && intended[0] == '2';
  }

  lemma HuggingFaceImageParts(region: string, jobType: string, tag: string)
    requires '/' !in region && (jobType == "training" || jobType == "inference")
    ensures ParseImageUri(DlcImage(region, "huggingface-pytorch", jobType, tag))
         == Some(ImageRef(DlcAccountId(region), EcrDomain(region), "huggingface-pytorch-" + jobType, tag))
  {
    var repository := "huggingface-pytorch" + "-" + jobType;
    assert repository == "huggingface-pytorch-" + jobType;
    assert ':' !in repository;
    DlcImageParts(region, "huggingface-pytorch", jobType, tag);
  }

  lemma HuggingFaceTrainingImageParts(region: string, tag: string)
    requires '/' !in region
    ensures ParseImageUri(DlcImage(region, "huggingface-pytorch", "training", tag)).Some?
    ensures ParseImageUri(DlcImage(region, "huggingface-pytorch", "training", tag)).value.tag == tag
  {
    assert ':' !in "huggingface-pytorch" + "-" + "training";
    DlcImageParts(region, "huggingface-pytorch", "training", tag);
  }

  /** A HuggingFace tag leads with its lead version. */
  lemma HuggingFaceTagLead(leadVersion: string, transformersVersion: string, pythonVersion: string, useGpu: bool)
    ensures StartsWith(HuggingFaceTag(leadVersion, transformersVersion, pythonVersion, useGpu),
                       leadVersion + "-transformers" + transformersVersion)
  {
    var lead := leadVersion + "-transformers" + transformersVersion;
    var tag := HuggingFaceTag(leadVersion, transformersVersion, pythonVersion, useGpu);
    assert tag == lead + ("-" + DeviceName(useGpu) + "-" + pythonVersion);
    assert tag[..|lead|] == lead;
  }

  /**
   * With the intended tag, the training image of a version set carries exactly the
   * tag of its inference image (which, by HuggingFaceTagLead, leads with the PyTorch version).
   */
  lemma HuggingFaceIntendedMatchesInference(region: string, transformersVersion: string, pytorchVersion: string,
                                            pythonVersion: string, useGpu: bool)
    requires '/' !in region
    ensures var training := ParseImageUri(HuggingFaceTrainingImageIntended(region, transformersVersion, pytorchVersion, pythonVersion, useGpu));
            var inference := ParseImageUri(HuggingFaceInferenceImage(region, transformersVersion, pytorchVersion, pythonVersion, useGpu));
            && training.Some? && inference.Some?
            && training.value.tag == inference.value.tag == HuggingFaceTag(pytorchVersion, transformersVersion, pythonVersion, useGpu)
  {
    var tag := HuggingFaceTag(pytorchVersion, transformersVersion, pythonVersion, useGpu);
    HuggingFaceImageParts(region, "training", tag);
    HuggingFaceImageParts(region, "inference", tag);
  }
}
