/** The `scan_codebase` tool: results memoised on (repository, sorted tool
    list). A miss creates a sandbox and builds a result whose `scans` holds
    exactly the requested known tools; a hit returns the stored result as is.
    The MD5 digest of the key is a function the server is given, and creating
    the sandbox is recorded as a request in `sandboxes`; a creation that raises
    ends the call with no result and nothing stored. */
module SecurityScanner {
  import opened Common
  import StringSort

  datatype Finding = Finding(id: string, severity: string, pkg: string, desc: string)

  /** The report a tool produces (the source fills in fixed findings). */
  datatype ToolReport =
    | TrivyReport(vulnerabilities: seq<Finding>, high: nat, medium: nat, low: nat)
    | BanditReport(issues: seq<Finding>, confidenceHigh: nat, severityHigh: nat)

  const TrivyFindings: ToolReport :=
    TrivyReport([Finding("CVE-2023-1234", "HIGH", "openssl", "Buffer overflow")], 1, 0, 0)

  const BanditFindings: ToolReport := BanditReport([], 0, 0)

  /** The tools the server knows; any other name in the request is ignored. */
  const KnownTools: set<string> := {"trivy", "bandit"}

  /** The default value of the `scan_types` argument. */
  const DefaultScanTypes: seq<string> := ["trivy", "bandit"]

  const ScanImage: string := "blaxel/py-app:latest"

  datatype ScanMeta = ScanMeta(sandboxBootTimeMs: real, cached: bool)

  datatype ScanResult = ScanResult(repo: string, timestamp: real, scans: map<string, ToolReport>, meta: ScanMeta)

  /** What the digest is taken of: `f"{repo_url}-{sorted(scan_types)}"`. */
  datatype ScanKey = ScanKey(repo: string, tools: seq<string>)

  /** The key keeps the repository and holds the requested tools in sorted
      order, each as often as it was requested. */
  function KeyOf(repoUrl: string, scanTypes: seq<string>): (k: ScanKey)
    ensures k.repo == repoUrl
    ensures StringSort.Sorted(k.tools) && multiset(k.tools) == multiset(scanTypes)
  {
    ScanKey(repoUrl, StringSort.Sort(scanTypes))
  }

  /** Any permutation of the same tool list, with the same repository, has the
      same key, hence hits the same cache entry. */
  lemma KeyIgnoresToolOrder(repoUrl: string, a: seq<string>, b: seq<string>)
    requires multiset(a) == multiset(b)
    ensures KeyOf(repoUrl, a) == KeyOf(repoUrl, b)
  {
    StringSort.SortIgnoresOrder(a, b);
  }

  /** Equal keys come only from one repository and one multiset of tools. */
  lemma KeyKeepsRepo(r1: string, r2: string, a: seq<string>, b: seq<string>)
    requires KeyOf(r1, a) == KeyOf(r2, b)
    ensures r1 == r2 && multiset(a) == multiset(b)
  {
    assert multiset(StringSort.Sort(a)) == multiset(StringSort.Sort(b));
  }

  /** `scans` holds a key for each requested known tool, with that tool's
      report, and nothing else. */
  predicate ScansFor(scans: map<string, ToolReport>, scanTypes: seq<string>)
    ensures ScansFor(scans, scanTypes) ==> scans.Keys == (set t | t in scanTypes && t in KnownTools)
  {
    && ("trivy" in scans <==> "trivy" in scanTypes)
    && ("bandit" in scans <==> "bandit" in scanTypes)
    && scans.Keys <= KnownTools
    && ("trivy" in scans ==> scans["trivy"] == TrivyFindings)
    && ("bandit" in scans ==> scans["bandit"] == BanditFindings)
  }

  /** With the default tool list both tools run, each with its findings. */
  lemma DefaultScanTypesRunBoth(scans: map<string, ToolReport>)
    requires ScansFor(scans, DefaultScanTypes)
    ensures scans == map["trivy" := TrivyFindings, "bandit" := BanditFindings]
  {
    assert "trivy" in DefaultScanTypes && "bandit" in DefaultScanTypes;
    assert scans.Keys == {"trivy", "bandit"};
  }

  /** Name of the sandbox a miss creates: the prefix and 8 digest characters. */
  function SandboxName(key: string): (name: string)
    ensures |name| == 9 + Min(8, |key|)
    ensures name[..9] == "sec-scan-" && name[9..] == key[..Min(8, |key|)]
  {
    "sec-scan-" + Prefix(key, 8)
  }

  class ScanServer {
    /** `hashlib.md5(...).hexdigest()` of the key's rendering. */
    const digest: ScanKey -> string
    /** `SCAN_CACHE`. */
    var cache: map<string, ScanResult>
    /** Every sandbox creation request, in order. */
    var sandboxes: seq<SandboxConfig>

    constructor (digest: ScanKey -> string)
      ensures this.digest == digest && cache == map[] && sandboxes == []
    {
      this.digest := digest;
      cache := map[];
      sandboxes := [];
    }

    /** `scan_codebase`; `timestamp` and `bootTimeMs` are the clock readings
        and `created` tells whether `SandboxInstance.create` returned. When it
        raises, the exception leaves the tool: there is no result and nothing
        is stored, so the next request for the same key misses again. */
    method ScanCodebase(repoUrl: string, scanTypes: seq<string>, created: bool, timestamp: real, bootTimeMs: real)
      returns (r: Option<ScanResult>)
      modifies this`cache, this`sandboxes
      ensures var key := digest(KeyOf(repoUrl, scanTypes));
        && (r.Some? ==> key in cache && cache[key] == r.value)
        && (key in old(cache) ==>
              r == Some(old(cache)[key]) && cache == old(cache) && sandboxes == old(sandboxes))
        && (key !in old(cache) ==>
              sandboxes == old(sandboxes) + [SandboxConfig(SandboxName(key), ScanImage)])
        && (key !in old(cache) && !created ==> r == None && cache == old(cache))
        && (key !in old(cache) && created ==>
              && r.Some? && r.value.repo == repoUrl && r.value.timestamp == timestamp
              && ScansFor(r.value.scans, scanTypes)
              && r.value.meta == ScanMeta(bootTimeMs, false)
              && cache == old(cache)[key := r.value])
    {
      var key := digest(KeyOf(repoUrl, scanTypes));
      if key in cache {
        return Some(cache[key]);
      }
      sandboxes := sandboxes + [SandboxConfig(SandboxName(key), ScanImage)];
      if !created {
        return None;
      }
      var scans: map<string, ToolReport> := map[];
      if "trivy" in scanTypes {
        scans := scans["trivy" := TrivyFindings];
      }
      if "bandit" in scanTypes {
        scans := scans["bandit" := BanditFindings];
      }
      var result := ScanResult(repoUrl, timestamp, scans, ScanMeta(bootTimeMs, false));
      cache := cache[key := result];
      r := Some(result);
    }

    /** Two requests for the same repository and the same tools in any order.
        Once the first has a result, the second returns it and creates no
        sandbox; when the first one's sandbox failed, the second misses again. */
    method ScanTwice(repoUrl: string, first: seq<string>, second: seq<string>,
                     c1: bool, t1: real, b1: real, c2: bool, t2: real, b2: real)
      returns (r1: Option<ScanResult>, r2: Option<ScanResult>)
      requires multiset(first) == multiset(second)
      modifies this`cache, this`sandboxes
      ensures r1.Some? ==> r2 == r1
      ensures digest(KeyOf(repoUrl, first)) in old(cache) ==> r1.Some? && sandboxes == old(sandboxes)
      ensures digest(KeyOf(repoUrl, first)) !in old(cache) && c1 ==>
        r1.Some? && r1.value.repo == repoUrl && !r1.value.meta.cached && |sandboxes| == |old(sandboxes)| + 1
      ensures digest(KeyOf(repoUrl, first)) !in old(cache) && !c1 ==>
        r1 == None && |sandboxes| == |old(sandboxes)| + 2 && (r2.Some? <==> c2)
    {
      r1 := ScanCodebase(repoUrl, first, c1, t1, b1);
      ghost var created := sandboxes;
      KeyIgnoresToolOrder(repoUrl, first, second);
      r2 := ScanCodebase(repoUrl, second, c2, t2, b2);
      if r1.Some? {
        assert sandboxes == created;
      }
    }
  }
}
