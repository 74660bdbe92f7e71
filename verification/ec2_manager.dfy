/**
 * The DCV part of the EC2 manager: reading the authentication token out of the
 * output of `dcv generate-auth-token`, and building the login URL for an instance.
 *
 * The SSM round trip (send the command, wait, fetch the result) is a parameter
 * `runCommand`: given the instance and the command list it yields the command result.
 * The instance lookup is likewise an input (null when the instance does not exist).
 */
module Ec2Manager {
  import opened Values
  import opened JavaText
  import opened CommandResults
  import DcvService

  /** The exceptions the two operations raise. */
  datatype Ec2Error =
    | RuntimeError(message: string)
    | NullPointer  // the command succeeded but its standard output is null

  const TOKEN_COMMAND_FAILED: string := "生成 DCV 令牌失败: "
  const NO_TOKEN_IN_OUTPUT: string := "无法从输出中提取 DCV 令牌"
  const INSTANCE_NOT_FOUND: string := "实例不存在: "

  /** A line that `trim` empties: every character of it is trimmable (see JavaText.Trim). */
  predicate BlankLine(line: string) {
    IsBlank(line)
  }

  /**
   * The index of the last of the first n lines that is not blank once trimmed, or None
   * when all of them are blank.
   */
  function LastNonBlankBefore(lines: seq<string>, n: nat): (r: Option<nat>)
    requires n <= |lines|
    ensures r.Some? ==> r.value < n && !BlankLine(lines[r.value])
                        && forall j :: r.value < j < n ==> BlankLine(lines[j])
    ensures r.None? ==> forall j :: 0 <= j < n ==> BlankLine(lines[j])
    decreases n
  {
    if n == 0 then None
    else if !BlankLine(lines[n - 1]) then Some(n - 1)
    else LastNonBlankBefore(lines, n - 1)
  }

  /** The token read from the lines of a command output, or the error when all are blank. */
  function TokenFromLines(lines: seq<string>): (r: Result<string, Ec2Error>)
    ensures r.Err? ==> r == Err(RuntimeError(NO_TOKEN_IN_OUTPUT))
    ensures r.Ok? ==> r.value != [] && IsTrimmed(r.value)
    ensures r.Ok? ==> exists k :: 0 <= k < |lines| && r.value == Trim(lines[k])
  {
    match LastNonBlankBefore(lines, |lines|)
    case Some(k) => Ok(Trim(lines[k]))
    case None => Err(RuntimeError(NO_TOKEN_IN_OUTPUT))
  }

  /** The token `generateDcvAuthToken` returns for a command output, or its error. */
  function TokenFromOutput(output: string): (r: Result<string, Ec2Error>)
    ensures r.Err? ==> r == Err(RuntimeError(NO_TOKEN_IN_OUTPUT))
    ensures r.Ok? ==> r.value != [] && IsTrimmed(r.value) && '\n' !in r.value
  {
    var lines := JavaSplit(output, '\n');
    var r := TokenFromLines(lines);
    if r.Ok? then
      var k :| 0 <= k < |lines| && r.value == Trim(lines[k]);
      TrimKeepsOut(lines[k], '\n');
      r
    else r
  }

  /**
   * Output whose lines are all blank yields the error; otherwise the token is one
   * trimmed line of the output, after which only blank lines follow.
   */
  lemma TokenFromOutputCases(output: string)
    ensures var lines := JavaSplit(output, '\n');
            && (TokenFromOutput(output).Err? <==> forall k :: 0 <= k < |lines| ==> Trim(lines[k]) == [])
            && (TokenFromOutput(output).Ok? ==>
                  exists k :: 0 <= k < |lines| && TokenFromOutput(output).value == Trim(lines[k])
                              && forall j :: k < j < |lines| ==> Trim(lines[j]) == [])
  {
    var lines := JavaSplit(output, '\n');
    var last := LastNonBlankBefore(lines, |lines|);
    if last.Some? {
      assert TokenFromOutput(output).value == Trim(lines[last.value]);
    }
  }

  /** A token printed on a line of its own after any output yields that token. */
  lemma TokenAfterOutput(before: string, token: string)
    requires token != [] && IsTrimmed(token) && '\n' !in token
    ensures TokenFromOutput(before + "\n" + token) == Ok(token)
  {
    var s := before + "\n" + token;
    assert s[|before|] == '\n';
    var pieces := SplitAll(s, '\n');
    assert s == before + ['\n'] + token;
    SplitAllConcat(before, '\n', token);
    SplitAllNoSep(token, '\n');
    assert pieces[|pieces| - 1] == token;
    var lines := JavaSplit(s, '\n');
    assert lines == pieces;
  }

  /**
   * The token extraction loop of `generateDcvAuthToken`: split the output at "\n"
   * and walk the lines backwards, returning the first one that is non-empty once trimmed.
   */
  method ExtractToken(output: string) returns (r: Result<string, Ec2Error>)
    ensures r == TokenFromOutput(output)
  {
    var lines := JavaSplit(output, '\n');
    r := ExtractTokenFromLines(lines);
  }

  /** The backward walk over the lines. */
  method ExtractTokenFromLines(lines: seq<string>) returns (r: Result<string, Ec2Error>)
    ensures r == TokenFromLines(lines)
  {
    var i := |lines| - 1;
    while i >= 0
      invariant -1 <= i < |lines|
      invariant LastNonBlankBefore(lines, |lines|) == LastNonBlankBefore(lines, i + 1)
    {
      var line := Trim(lines[i]);
      if line != [] {
        return Ok(line);
      }
      i := i - 1;
    }
    return Err(RuntimeError(NO_TOKEN_IN_OUTPUT));
  }

  /** What `generateDcvAuthToken` yields for the result of its command. */
  function AuthTokenFrom(result: CommandResult): (r: Result<string, Ec2Error>)
    ensures !result.IsSuccess() ==> r == Err(RuntimeError(TOKEN_COMMAND_FAILED + NullText(result.standardError)))
    ensures result.IsSuccess() && result.standardOutput.None? ==> r == Err(NullPointer)
    ensures result.IsSuccess() && result.standardOutput.Some? ==> r == TokenFromOutput(result.standardOutput.value)
  {
    if !result.IsSuccess() then Err(RuntimeError(TOKEN_COMMAND_FAILED + NullText(result.standardError)))
    else if result.standardOutput.None? then Err(NullPointer)
    else TokenFromOutput(result.standardOutput.value)
  }

  /**
   * `generateDcvAuthToken(instanceId, sessionId, user)`: runs the token command on the
   * instance; a failed command is an error before its output is looked at.
   */
  method GenerateDcvAuthToken(runCommand: (Option<string>, seq<string>) -> CommandResult,
                              instanceId: Option<string>, sessionId: Option<string>, user: Option<string>)
    returns (r: Result<string, Ec2Error>)
    ensures r == AuthTokenFrom(runCommand(instanceId, DcvService.TokenGenerationCommands(sessionId, user)))
  {
    var commands := DcvService.TokenGenerationCommands(sessionId, user);
    var result := runCommand(instanceId, commands);
    if !result.IsSuccess() {
      return Err(RuntimeError(TOKEN_COMMAND_FAILED + NullText(result.standardError)));
    }
    if result.standardOutput.None? {
      return Err(NullPointer);
    }
    r := ExtractToken(result.standardOutput.value);
  }

  /** The addresses of an instance, as the instance lookup reports them. */
  datatype InstanceAddresses = InstanceAddresses(publicIpAddress: Option<string>, privateIpAddress: Option<string>)

  /** The public IP unless it is null or empty, then the private IP (which may itself be null). */
  function ChooseIp(info: InstanceAddresses): (ip: Option<string>)
    ensures IsPresent(info.publicIpAddress) ==> ip == info.publicIpAddress
    ensures !IsPresent(info.publicIpAddress) ==> ip == info.privateIpAddress
  {
    var ip := info.publicIpAddress;
    if ip.None? || ip.value == "" then info.privateIpAddress else ip
  }

  /**
   * `generateDcvPresignedUrlForInstance`: a missing instance is an error before any
   * token work; otherwise the token for session "console" and user "ec2-user" goes into
   * the URL for the chosen IP, the configured DCV port and session "console".
   */
  method GenerateDcvPresignedUrlForInstance(runCommand: (Option<string>, seq<string>) -> CommandResult,
                                            instanceId: Option<string>, info: Option<InstanceAddresses>,
                                            dcvPort: int32)
    returns (r: Result<string, Ec2Error>)
    ensures info.None? ==> r == Err(RuntimeError(INSTANCE_NOT_FOUND + NullText(instanceId)))
    ensures info.Some? ==>
      var token := AuthTokenFrom(runCommand(instanceId, DcvService.TokenGenerationCommands(Some("console"), Some("ec2-user"))));
      && (token.Err? ==> r == Err(token.error))
      && (token.Ok? ==> r == Ok(DcvService.PresignedUrl(ChooseIp(info.value), dcvPort, Some("console"), Some(token.value))))
  {
    if info.None? {
      return Err(RuntimeError(INSTANCE_NOT_FOUND + NullText(instanceId)));
    }
    var ip := ChooseIp(info.value);
    var token := GenerateDcvAuthToken(runCommand, instanceId, Some("console"), Some("ec2-user"));
    if token.Err? {
      return Err(token.error);
    }
    return Ok(DcvService.PresignedUrl(ip, dcvPort, Some("console"), Some(token.value)));
  }

  /**
   * The instance URL reads back as the chosen IP, the configured port, the token as
   * query and "console" as fragment, whenever the IP has no ':' and the token no '#'.
   */
  lemma InstanceUrlParts(info: InstanceAddresses, dcvPort: int32, token: string)
    requires ChooseIp(info).Some? && ':' !in ChooseIp(info).value && '#' !in token
    ensures DcvService.ParseDcvUrl(DcvService.PresignedUrl(ChooseIp(info), dcvPort, Some("console"), Some(token)))
         == Some(DcvService.DcvUrl(ChooseIp(info).value, Some(dcvPort as int), "authToken=" + token, "console"))
  {
    DcvService.PresignedUrlParts(ChooseIp(info).value, dcvPort, "console", token);
  }
}
