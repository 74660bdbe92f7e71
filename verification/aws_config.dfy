/**
 * The application configuration: settings read from a properties file, with a default
 * for every key, and the choice of where AWS credentials come from.
 *
 * Loading the file is outside the model: a configuration starts from the properties
 * already loaded (an empty map when the file is missing). A credentials provider the
 * caller installs is represented by an opaque handle.
 */
module AwsConfigModel {
  import opened Values
  import opened JavaText

  /** A caller-supplied credentials provider, known only by its identity. */
  type ProviderHandle = nat

  /** Where `getCredentialsProvider` takes the credentials from. */
  datatype CredentialSource =
    | Custom(provider: ProviderHandle)
    | StaticKeys(accessKeyId: string, secretAccessKey: string)
    | DefaultChain

  /** The value of every parsed setting. */
  datatype AwsSettings = AwsSettings(
    accessKeyId: string,
    secretAccessKey: string,
    region: string,
    vpcId: string,
    subnetId: string,
    availabilityZone: string,
    securityGroupIds: seq<string>,
    defaultAmi: string,
    windowsAmi: string,
    ubuntuAmi: string,
    instanceType: string,
    keyName: string,
    ebsSize: int32,
    ebsType: string,
    namePrefix: string,
    instanceProfile: string,
    dcvPort: int32,
    s3Bucket: string,
    s3MountPoint: string)

  /** `properties.getProperty(key, defaultValue)`: the stored value, even an empty one, else the default. */
  function GetProperty(properties: map<string, string>, key: string, defaultValue: string): (r: string)
    ensures key in properties ==> r == properties[key]
    ensures key !in properties ==> r == defaultValue
  {
    if key in properties then properties[key] else defaultValue
  }

  /**
   * `getIntProperty(key, defaultValue)`: the default for a missing or empty value;
   * otherwise the trimmed value read as a Java int, or the default when it is not one.
   */
  function GetIntProperty(properties: map<string, string>, key: string, defaultValue: int32): (r: int32)
    ensures key !in properties || properties[key] == "" ==> r == defaultValue
    ensures key in properties && properties[key] != "" && ParseInt(Trim(properties[key])).Some? ==>
              r as int == ParseInt(Trim(properties[key])).value
    ensures key in properties && ParseInt(Trim(properties[key])).None? ==> r == defaultValue
  {
    if key !in properties || properties[key] == "" then defaultValue
    else
      match ParseInt(Trim(properties[key]))
      case Some(n) => n as int32
      case None => defaultValue
  }

  /** An int written in decimal, with or without surrounding blanks, reads back as itself. */
  lemma GetIntPropertyOfDecimal(properties: map<string, string>, key: string, n: int32, blanks: string,
                                defaultValue: int32)
    requires IsBlank(blanks)
    ensures GetIntProperty(properties[key := blanks + IntToString(n as int) + blanks], key, defaultValue) == n
  {
    var digits := IntToString(n as int);
    var text := blanks + digits + blanks;
    TrimOfPadded(blanks, digits);
    ParseIntToString(n as int);
  }

  /** Trimming removes blank padding around a text that starts and ends with a non-blank. */
  lemma TrimOfPadded(blanks: string, s: string)
    requires IsBlank(blanks) && s != [] && !IsTrimmable(s[0]) && !IsTrimmable(s[|s| - 1])
    ensures Trim(blanks + s + blanks) == s
  {
    var t := blanks + s + blanks;
    var r := Trim(t);
    assert t[..|blanks|] == blanks && t[|blanks| + |s|..] == blanks;
    assert t[|blanks|..|blanks| + |s|] == s;
    assert IsTrimmed(s);
    TrimOfSlice(t, |blanks|, |blanks| + |s|);
  }

  /** The non-empty trimmed pieces, in order. */
  function KeepNonEmptyTrimmed(pieces: seq<string>): (r: seq<string>)
    ensures |r| <= |pieces|
    ensures forall k :: 0 <= k < |r| ==> r[k] != [] && IsTrimmed(r[k])
    ensures (forall k :: 0 <= k < |pieces| ==> ',' !in pieces[k]) ==> forall k :: 0 <= k < |r| ==> ',' !in r[k]
  {
    if pieces == [] then []
    else
      var rest := KeepNonEmptyTrimmed(pieces[1..]);
      var piece := Trim(pieces[0]);
      var r := if piece == [] then rest else [piece] + rest;
      if ',' in pieces[0] then r
      else
        TrimKeepsOut(pieces[0], ',');
        r
  }

  /** One piece gives its trimmed text, or nothing when trimming empties it. */
  lemma KeepNonEmptyTrimmedOne(piece: string)
    ensures KeepNonEmptyTrimmed([piece]) == if Trim(piece) == [] then [] else [Trim(piece)]
  {
    assert [piece][1..] == [];
  }

  /** The kept pieces of two lists are those of the first list followed by those of the second. */
  lemma {:induction false} KeepNonEmptyTrimmedAppend(a: seq<string>, b: seq<string>)
    ensures KeepNonEmptyTrimmed(a + b) == KeepNonEmptyTrimmed(a) + KeepNonEmptyTrimmed(b)
  {
    if a == [] {
      assert a + b == b;
    } else {
      assert (a + b)[0] == a[0] && (a + b)[1..] == a[1..] + b;
      KeepNonEmptyTrimmedAppend(a[1..], b);
      var piece := Trim(a[0]);
      if piece != [] {
        ConcatAssoc([piece], KeepNonEmptyTrimmed(a[1..]), KeepNonEmptyTrimmed(b));
      }
    }
  }

  /** A text is kept exactly when it is non-empty and some piece trims to it. */
  lemma {:induction false} KeepNonEmptyTrimmedMembers(pieces: seq<string>, x: string)
    ensures x in KeepNonEmptyTrimmed(pieces) <==> x != [] && exists k :: 0 <= k < |pieces| && Trim(pieces[k]) == x
  {
    if pieces != [] {
      var rest := pieces[1..];
      KeepNonEmptyTrimmedMembers(rest, x);
      if x != [] && exists k :: 0 <= k < |pieces| && Trim(pieces[k]) == x {
        var k :| 0 <= k < |pieces| && Trim(pieces[k]) == x;
        if k > 0 {
          assert rest[k - 1] == pieces[k];
        }
      }
      if exists k :: 0 <= k < |rest| && Trim(rest[k]) == x {
        var k :| 0 <= k < |rest| && Trim(rest[k]) == x;
        assert pieces[k + 1] == rest[k];
      }
    }
  }

  /** Pieces that trim to nothing, such as the empty pieces `split` drops, keep nothing. */
  lemma {:induction false} KeepNonEmptyTrimmedOfDropped(pieces: seq<string>)
    ensures KeepNonEmptyTrimmed(DropTrailingEmpty(pieces)) == KeepNonEmptyTrimmed(pieces)
    decreases |pieces|
  {
    if pieces != [] && pieces[|pieces| - 1] == [] {
      var init := pieces[..|pieces| - 1];
      KeepNonEmptyTrimmedOfDropped(init);
      assert pieces == init + [[]];
      KeepNonEmptyTrimmedAppend(init, [[]]);
      KeepNonEmptyTrimmedOne([]);
      assert KeepNonEmptyTrimmed(init) + [] == KeepNonEmptyTrimmed(init);
    }
  }

  /**
   * `Arrays.stream(sgIds.split(",")).map(String::trim).filter(s -> !s.isEmpty()).toList()`:
   * the comma-separated IDs, trimmed, with the empty ones dropped and order kept.
   */
  function SecurityGroupIds(sgIds: string): (r: seq<string>)
    ensures forall k :: 0 <= k < |r| ==> r[k] != [] && IsTrimmed(r[k]) && ',' !in r[k]
  {
    KeepNonEmptyTrimmed(JavaSplit(sgIds, ','))
  }

  /**
   * The IDs are the trimmed, non-empty pieces between the commas, in order: Java's
   * dropping of trailing empty pieces changes nothing, as empty pieces are dropped anyway.
   */
  lemma SecurityGroupIdsOfText(sgIds: string)
    ensures SecurityGroupIds(sgIds) == KeepNonEmptyTrimmed(SplitAll(sgIds, ','))
  {
    if ',' in sgIds {
      KeepNonEmptyTrimmedOfDropped(SplitAll(sgIds, ','));
    } else {
      SplitAllNoSep(sgIds, ',');
    }
  }

  /**
   * Pieces joined with "," parse back as those pieces trimmed, with the ones that trim
   * to nothing dropped: " sg-1 , ,sg-2" gives ["sg-1", "sg-2"].
   */
  lemma SecurityGroupIdsOfPieces(pieces: seq<string>)
    requires forall k :: 0 <= k < |pieces| ==> ',' !in pieces[k]
    ensures SecurityGroupIds(Join(pieces, ",")) == KeepNonEmptyTrimmed(pieces)
  {
    SecurityGroupIdsOfText(Join(pieces, ","));
    if pieces == [] {
      assert Join(pieces, ",") == [];
      KeepNonEmptyTrimmedOne([]);
    } else {
      SplitAllJoin(pieces, ',');
    }
  }

  /** Trimmed, non-empty IDs without commas are kept as they are. */
  lemma {:induction false} KeepNonEmptyTrimmedOfIds(ids: seq<string>)
    requires forall k :: 0 <= k < |ids| ==> ids[k] != [] && IsTrimmed(ids[k])
    ensures KeepNonEmptyTrimmed(ids) == ids
  {
    if ids != [] {
      KeepNonEmptyTrimmedOfIds(ids[1..]);
    }
  }

  /** Dropping trailing empty pieces leaves a list without empty pieces unchanged. */
  lemma DropTrailingEmptyOfNonEmpty(pieces: seq<string>)
    requires forall k :: 0 <= k < |pieces| ==> pieces[k] != []
    ensures DropTrailingEmpty(pieces) == pieces
  {
  }

  /** Joining IDs with "," and parsing them back gives the same IDs. */
  lemma SecurityGroupIdsOfJoin(ids: seq<string>)
    requires forall k :: 0 <= k < |ids| ==> ids[k] != [] && IsTrimmed(ids[k]) && ',' !in ids[k]
    ensures SecurityGroupIds(Join(ids, ",")) == ids
  {
    if ids == [] {
      assert Join(ids, ",") == [];
      assert JavaSplit([], ',') == [[]];
    } else {
      var text := Join(ids, [',']);
      SplitAllJoin(ids, ',');
      if ',' in text {
        DropTrailingEmptyOfNonEmpty(ids);
      } else {
        SplitAllNoSep(text, ',');
        assert JavaSplit(text, ',') == [text] == SplitAll(text, ',');
      }
      KeepNonEmptyTrimmedOfIds(ids);
    }
  }

  /** `parseConfig()`: every setting from its key, or its default when the key is absent. */
  function ParseSettings(properties: map<string, string>): (r: AwsSettings)
    ensures r.securityGroupIds == SecurityGroupIds(GetProperty(properties, "aws.securityGroup.ids", ""))
    ensures r.ebsSize == GetIntProperty(properties, "aws.ec2.ebsSize", 50)
    ensures r.dcvPort == GetIntProperty(properties, "aws.dcv.port", 8443)
  {
    AwsSettings(
      GetProperty(properties, "aws.accessKeyId", ""),
      GetProperty(properties, "aws.secretAccessKey", ""),
      GetProperty(properties, "aws.region", "us-east-1"),
      GetProperty(properties, "aws.vpc.id", ""),
      GetProperty(properties, "aws.subnet.id", ""),
      GetProperty(properties, "aws.availabilityZone", ""),
      SecurityGroupIds(GetProperty(properties, "aws.securityGroup.ids", "")),
      GetProperty(properties, "aws.ami.default", ""),
      GetProperty(properties, "aws.ami.windows", ""),
      GetProperty(properties, "aws.ami.ubuntu", ""),
      GetProperty(properties, "aws.ec2.instanceType", "t3.medium"),
      GetProperty(properties, "aws.ec2.keyName", ""),
      GetIntProperty(properties, "aws.ec2.ebsSize", 50),
      GetProperty(properties, "aws.ec2.ebsType", "gp3"),
      GetProperty(properties, "aws.ec2.namePrefix", "EC2-Instance"),
      GetProperty(properties, "aws.iam.instanceProfile", ""),
      GetIntProperty(properties, "aws.dcv.port", 8443),
      GetProperty(properties, "aws.s3.bucket", ""),
      GetProperty(properties, "aws.s3.mountPoint", "/mnt/s3data"))
  }

  /**
   * A key that is present sets its setting to its value, even an empty one: the value
   * wins over the default. The security groups are parsed from the value.
   */
  lemma PresentKeysReachSettings(properties: map<string, string>)
    ensures var r := ParseSettings(properties);
            && ("aws.accessKeyId" in properties ==> r.accessKeyId == properties["aws.accessKeyId"])
            && ("aws.secretAccessKey" in properties ==> r.secretAccessKey == properties["aws.secretAccessKey"])
            && ("aws.region" in properties ==> r.region == properties["aws.region"])
            && ("aws.vpc.id" in properties ==> r.vpcId == properties["aws.vpc.id"])
            && ("aws.subnet.id" in properties ==> r.subnetId == properties["aws.subnet.id"])
            && ("aws.availabilityZone" in properties ==> r.availabilityZone == properties["aws.availabilityZone"])
            && ("aws.ami.default" in properties ==> r.defaultAmi == properties["aws.ami.default"])
            && ("aws.ami.windows" in properties ==> r.windowsAmi == properties["aws.ami.windows"])
            && ("aws.ami.ubuntu" in properties ==> r.ubuntuAmi == properties["aws.ami.ubuntu"])
            && ("aws.ec2.instanceType" in properties ==> r.instanceType == properties["aws.ec2.instanceType"])
            && ("aws.ec2.keyName" in properties ==> r.keyName == properties["aws.ec2.keyName"])
            && ("aws.ec2.ebsType" in properties ==> r.ebsType == properties["aws.ec2.ebsType"])
            && ("aws.ec2.namePrefix" in properties ==> r.namePrefix == properties["aws.ec2.namePrefix"])
            && ("aws.iam.instanceProfile" in properties ==> r.instanceProfile == properties["aws.iam.instanceProfile"])
            && ("aws.s3.bucket" in properties ==> r.s3Bucket == properties["aws.s3.bucket"])
            && ("aws.s3.mountPoint" in properties ==> r.s3MountPoint == properties["aws.s3.mountPoint"])
            && ("aws.securityGroup.ids" in properties ==>
                  r.securityGroupIds == SecurityGroupIds(properties["aws.securityGroup.ids"]))
  {
  }

  /** A key that is absent leaves its setting at its default, whatever the other keys hold. */
  lemma AbsentKeysTakeDefaults(properties: map<string, string>)
    ensures var r := ParseSettings(properties);
            && ("aws.accessKeyId" !in properties ==> r.accessKeyId == "")
            && ("aws.secretAccessKey" !in properties ==> r.secretAccessKey == "")
            && ("aws.region" !in properties ==> r.region == "us-east-1")
            && ("aws.vpc.id" !in properties ==> r.vpcId == "")
            && ("aws.subnet.id" !in properties ==> r.subnetId == "")
            && ("aws.availabilityZone" !in properties ==> r.availabilityZone == "")
            && ("aws.ami.default" !in properties ==> r.defaultAmi == "")
            && ("aws.ami.windows" !in properties ==> r.windowsAmi == "")
            && ("aws.ami.ubuntu" !in properties ==> r.ubuntuAmi == "")
            && ("aws.ec2.instanceType" !in properties ==> r.instanceType == "t3.medium")
            && ("aws.ec2.keyName" !in properties ==> r.keyName == "")
            && ("aws.ec2.ebsSize" !in properties ==> r.ebsSize == 50)
            && ("aws.ec2.ebsType" !in properties ==> r.ebsType == "gp3")
            && ("aws.ec2.namePrefix" !in properties ==> r.namePrefix == "EC2-Instance")
            && ("aws.iam.instanceProfile" !in properties ==> r.instanceProfile == "")
            && ("aws.dcv.port" !in properties ==> r.dcvPort == 8443)
            && ("aws.s3.bucket" !in properties ==> r.s3Bucket == "")
            && ("aws.s3.mountPoint" !in properties ==> r.s3MountPoint == "/mnt/s3data")
            && ("aws.securityGroup.ids" !in properties ==> r.securityGroupIds == [])
  {
    assert JavaSplit("", ',') == [""];
  }

  /** With no properties every setting takes its default. */
  lemma DefaultSettings()
    ensures ParseSettings(map[]) == AwsSettings("", "", "us-east-1", "", "", "", [], "", "", "", "t3.medium", "",
                                               50, "gp3", "EC2-Instance", "", 8443, "", "/mnt/s3data")
  {
    assert JavaSplit("", ',') == [""];
  }

  /** The static keys are usable: both non-empty and neither a "YOUR_" placeholder. */
  predicate UsesStaticKeys(accessKeyId: string, secretAccessKey: string) {
    accessKeyId != "" && !StartsWith(accessKeyId, "YOUR_")
    && secretAccessKey != "" && !StartsWith(secretAccessKey, "YOUR_")
  }

  /** The failure of `getCredentialsProvider` as written. */
  datatype CredentialsError = StringIndexOutOfBounds

  /**
   * `getCredentialsProvider` as written: the log line before returning static keys
   * takes `accessKeyId.substring(0, 4)`, which throws for a key shorter than four.
   */
  function CredentialsProviderAsWritten(custom: Option<ProviderHandle>, accessKeyId: string,
                                        secretAccessKey: string): (r: Result<CredentialSource, CredentialsError>)
    ensures r.Err? <==> custom.None? && UsesStaticKeys(accessKeyId, secretAccessKey) && |accessKeyId| < 4
  {
    if custom.Some? then Ok(Custom(custom.value))
    else if UsesStaticKeys(accessKeyId, secretAccessKey) then
      if |accessKeyId| < 4 then Err(StringIndexOutOfBounds) else Ok(StaticKeys(accessKeyId, secretAccessKey))
    else Ok(DefaultChain)
  }

  /**
   * The credential choice: an installed provider first, then usable static keys, then
   * the default chain.
   */
  function CredentialsProvider(custom: Option<ProviderHandle>, accessKeyId: string,
                               secretAccessKey: string): (r: CredentialSource)
    ensures custom.Some? ==> r == Custom(custom.value)
    ensures custom.None? ==> (r.StaticKeys? <==> UsesStaticKeys(accessKeyId, secretAccessKey))
    ensures r.StaticKeys? ==> r == StaticKeys(accessKeyId, secretAccessKey)
    ensures custom.None? && !UsesStaticKeys(accessKeyId, secretAccessKey) ==> r == DefaultChain
  {
    if custom.Some? then Custom(custom.value)
    else if UsesStaticKeys(accessKeyId, secretAccessKey) then StaticKeys(accessKeyId, secretAccessKey)
    else DefaultChain
  }

  /** Whenever the code as written does not throw, it picks what the corrected choice picks. */
  lemma CredentialsAsWrittenAgrees(custom: Option<ProviderHandle>, accessKeyId: string, secretAccessKey: string)
    ensures CredentialsProviderAsWritten(custom, accessKeyId, secretAccessKey).Ok? ==>
            CredentialsProviderAsWritten(custom, accessKeyId, secretAccessKey).value
            == CredentialsProvider(custom, accessKeyId, secretAccessKey)
  {
  }

  /** A usable three-character access key makes the code as written throw. */
  lemma ShortAccessKeyThrows(accessKeyId: string, secretAccessKey: string)
    requires accessKeyId == "AK1" && secretAccessKey == "secret"
    ensures CredentialsProviderAsWritten(None, accessKeyId, secretAccessKey) == Err(StringIndexOutOfBounds)
    ensures CredentialsProvider(None, accessKeyId, secretAccessKey) == StaticKeys(accessKeyId, secretAccessKey)
  {
    assert !StartsWith(accessKeyId, "YOUR_");
    assert !StartsWith(secretAccessKey, "YOUR_") by { assert secretAccessKey[0] != "YOUR_"[0]; }
  }

  /**
   * The configuration object. The parsed settings are held as one record, `settings`;
   * `parseConfig` replaces it, `setInstanceProfile` changes one of its fields, and
   * `setCredentialsProvider` assigns the provider.
   */
  class AwsConfig {
    var properties: map<string, string>
    var settings: AwsSettings
    var customCredentialsProvider: Option<ProviderHandle>

    /** `AwsConfig(configFile)` once the file's properties are loaded: every setting parsed from them. */
    constructor (loaded: map<string, string>)
      ensures properties == loaded
      ensures settings == ParseSettings(loaded)
      ensures customCredentialsProvider.None?
    {
      properties := loaded;
      settings := ParseSettings(loaded);
      customCredentialsProvider := None;
    }

    /** `parseConfig()`: re-reads every setting from the current properties. */
    method ParseConfig()
      modifies this
      ensures settings == ParseSettings(properties)
      ensures properties == old(properties) && customCredentialsProvider == old(customCredentialsProvider)
    {
      settings := ParseSettings(properties);
    }

    /**
     * `fromFile(filePath)` after the file is read: its properties are added over the
     * loaded ones (a key in the file wins) and every setting is parsed again.
     */
    method LoadProperties(fromFile: map<string, string>)
      modifies this
      ensures properties == old(properties) + fromFile
      ensures settings == ParseSettings(old(properties) + fromFile)
      ensures customCredentialsProvider == old(customCredentialsProvider)
    {
      properties := properties + fromFile;
      ParseConfig();
    }

    /**
     * `getCredentialsProvider()` as written, including its failure on a usable access key
     * shorter than four characters; when it succeeds it makes the corrected choice.
     */
    method GetCredentialsProvider() returns (r: Result<CredentialSource, CredentialsError>)
      ensures r == CredentialsProviderAsWritten(customCredentialsProvider, settings.accessKeyId, settings.secretAccessKey)
      ensures r.Ok? ==> r.value == CredentialsProvider(customCredentialsProvider, settings.accessKeyId, settings.secretAccessKey)
    {
      if customCredentialsProvider.Some? {
        return Ok(Custom(customCredentialsProvider.value));
      }
      if UsesStaticKeys(settings.accessKeyId, settings.secretAccessKey) {
        if |settings.accessKeyId| < 4 {
          return Err(StringIndexOutOfBounds);
        }
        return Ok(StaticKeys(settings.accessKeyId, settings.secretAccessKey));
      }
      return Ok(DefaultChain);
    }

    /** `setCredentialsProvider(p)`: installs p (or removes the provider, for null). */
    method SetCredentialsProvider(provider: Option<ProviderHandle>)
      modifies this
      ensures customCredentialsProvider == provider
      ensures settings == old(settings) && properties == old(properties)
    {
      customCredentialsProvider := provider;
    }

    /** `setInstanceProfile(p)`: changes the instance profile and nothing else. */
    method SetInstanceProfile(instanceProfile: string)
      modifies this
      ensures settings == old(settings).(instanceProfile := instanceProfile)
      ensures properties == old(properties) && customCredentialsProvider == old(customCredentialsProvider)
    {
      settings := settings.(instanceProfile := instanceProfile);
    }
  }
}
