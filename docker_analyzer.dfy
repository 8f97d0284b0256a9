/** The `analyze_dockerfile` and `scan_container_image` tools. Dockerfile
    analyses are memoised on the content (through its digest); a miss creates a
    sandbox and echoes at most the first 100 characters of the content. Image
    scans create a sandbox every time, echo the image name and never touch the
    cache. A sandbox creation that raises ends the call without a result.
    The analysis and scan findings are the source's fixed values. */
module DockerAnalyzer {
  import opened Common

  datatype Issue = Issue(severity: string, line: nat, message: string, recommendation: string)

  datatype Analysis = Analysis(
    score: nat,
    issues: seq<Issue>,
    vulnerabilities: nat,
    recommendations: seq<string>,
    potentialSizeReduction: string,
    layerCount: nat,
    recommendedLayerCount: nat)

  const FixedAnalysis: Analysis := Analysis(
    85,
    [Issue("WARNING", 5, "Consider using specific version tags instead of 'latest'",
           "FROM node:18-alpine instead of FROM node:latest")],
    0,
    ["Use multi-stage builds to reduce image size", "Run as non-root user",
     "Use .dockerignore to exclude sensitive files"],
    "65%",
    12,
    6)

  datatype AnalysisMeta = AnalysisMeta(sandboxBootTimeMs: real, cached: bool)

  datatype AnalysisResult = AnalysisResult(dockerfile: string, timestamp: real, analysis: Analysis, meta: AnalysisMeta)

  datatype VulnerabilityCounts = VulnerabilityCounts(critical: nat, high: nat, medium: nat, low: nat)

  datatype ImageFinding = ImageFinding(id: string, severity: string, package: string, fixedIn: string, description: string)

  datatype ImageScanResult = ImageScanResult(
    image: string,
    scanTimeMs: real,
    vulnerabilities: VulnerabilityCounts,
    details: seq<ImageFinding>,
    recommendations: string)

  const ImageVulnerabilities: VulnerabilityCounts := VulnerabilityCounts(0, 2, 5, 12)

  const ImageDetails: seq<ImageFinding> := [
    ImageFinding("CVE-2024-1234", "HIGH", "libssl3", "3.0.13-1", "OpenSSL vulnerability"),
    ImageFinding("CVE-2024-5678", "HIGH", "curl", "8.6.0-1", "curl buffer overflow")
  ]

  const ImageRecommendation: string := "Update base image to latest patched version"

  /** Length of the echoed content, before the ellipsis. */
  const EchoLength: nat := 100

  /** `dockerfile_content[:100] + "..."`. */
  function Echo(content: string): (e: string)
    ensures |e| == Min(EchoLength, |content|) + 3
    ensures e[..|e| - 3] == content[..Min(EchoLength, |content|)]
    ensures e[|e| - 3..] == "..."
    ensures |content| <= EchoLength ==> e == content + "..."
  {
    Prefix(content, EchoLength) + "..."
  }

  /** Name of the sandbox an analysis miss creates. */
  function AnalysisSandboxName(key: string): (name: string)
    ensures |name| == 15 + Min(8, |key|)
    ensures name[..15] == "docker-analyze-" && name[15..] == key[..Min(8, |key|)]
  {
    "docker-analyze-" + Prefix(key, 8)
  }

  class AnalyzerServer {
    /** `hashlib.md5(content.encode()).hexdigest()`. */
    const digest: string -> string
    /** `ANALYSIS_CACHE`. */
    var cache: map<string, AnalysisResult>
    /** Every sandbox creation request, in order. */
    var sandboxes: seq<SandboxConfig>

    constructor (digest: string -> string)
      ensures this.digest == digest && cache == map[] && sandboxes == []
    {
      this.digest := digest;
      cache := map[];
      sandboxes := [];
    }

    /** `analyze_dockerfile`; `timestamp` and `bootTimeMs` are clock readings
        and `created` tells whether `SandboxInstance.create` returned. When it
        raises, there is no result and nothing is stored. */
    method AnalyzeDockerfile(dockerfileContent: string, created: bool, timestamp: real, bootTimeMs: real)
      returns (r: Option<AnalysisResult>)
      modifies this`cache, this`sandboxes
      ensures var key := digest(dockerfileContent);
        && (r.Some? ==> key in cache && cache[key] == r.value)
        && (key in old(cache) ==>
              r == Some(old(cache)[key]) && cache == old(cache) && sandboxes == old(sandboxes))
        && (key !in old(cache) ==>
              sandboxes == old(sandboxes) + [SandboxConfig(AnalysisSandboxName(key), "prod-node")])
        && (key !in old(cache) && !created ==> r == None && cache == old(cache))
        && (key !in old(cache) && created ==>
              && r == Some(AnalysisResult(Echo(dockerfileContent), timestamp, FixedAnalysis, AnalysisMeta(bootTimeMs, false)))
              && cache == old(cache)[key := r.value])
    {
      var key := digest(dockerfileContent);
      if key in cache {
        return Some(cache[key]);
      }
      sandboxes := sandboxes + [SandboxConfig(AnalysisSandboxName(key), "prod-node")];
      if !created {
        return None;
      }
      var result := AnalysisResult(Echo(dockerfileContent), timestamp, FixedAnalysis, AnalysisMeta(bootTimeMs, false));
      cache := cache[key := result];
      r := Some(result);
    }

    /** Analysing the same content twice. Once the first call has a result, the
        second returns it and creates no sandbox; when the first one's sandbox
        failed, the second misses again. */
    method AnalyzeTwice(dockerfileContent: string, c1: bool, t1: real, b1: real, c2: bool, t2: real, b2: real)
      returns (r1: Option<AnalysisResult>, r2: Option<AnalysisResult>)
      modifies this`cache, this`sandboxes
      ensures r1.Some? ==> r2 == r1
      ensures digest(dockerfileContent) in old(cache) ==> r1.Some? && sandboxes == old(sandboxes)
      ensures digest(dockerfileContent) !in old(cache) && c1 ==>
        r1.Some? && !r1.value.meta.cached && |sandboxes| == |old(sandboxes)| + 1
      ensures digest(dockerfileContent) !in old(cache) && !c1 ==>
        r1 == None && |sandboxes| == |old(sandboxes)| + 2 && (r2.Some? <==> c2)
    {
      r1 := AnalyzeDockerfile(dockerfileContent, c1, t1, b1);
      ghost var created := sandboxes;
      r2 := AnalyzeDockerfile(dockerfileContent, c2, t2, b2);
      if r1.Some? {
        assert sandboxes == created;
      }
    }

    /** `scan_container_image`; `stamp` renders `int(time.time())`,
        `scanTimeMs` is the elapsed clock reading and `created` tells whether
        `SandboxInstance.create` returned. The cache is not in the frame: it is
        neither read nor written. */
    method ScanContainerImage(imageName: string, stamp: string, created: bool, scanTimeMs: real)
      returns (r: Option<ImageScanResult>)
      modifies this`sandboxes
      ensures r.Some? <==> created
      ensures r.Some? ==>
        && r.value.image == imageName && r.value.scanTimeMs == scanTimeMs
        && r.value.vulnerabilities == ImageVulnerabilities && r.value.details == ImageDetails
        && r.value.recommendations == ImageRecommendation
      ensures sandboxes == old(sandboxes) + [SandboxConfig("image-scan-" + stamp, "prod-base")]
    {
      sandboxes := sandboxes + [SandboxConfig("image-scan-" + stamp, "prod-base")];
      if !created {
        return None;
      }
      r := Some(ImageScanResult(imageName, scanTimeMs, ImageVulnerabilities, ImageDetails, ImageRecommendation));
    }
  }
}
