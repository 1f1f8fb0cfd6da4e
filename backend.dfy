/**
 * The text-generation backends of app/services/llm_service.py: a mock that answers every
 * prompt with a fixed text, a vLLM wrapper, and the service that builds one of the two on
 * first use and keeps it. The vLLM engine is a function from the prompt to its outputs,
 * each output being the texts of its candidates.
 */
module Backend {
  import opened Wrappers
  import opened Text

  /** The fixed answer of the mock backend (three lines). */
  const MockReply: string :=
    "현재는 SANDBOX 모드입니다. 실제 모델 호출 없이 응답을 모의 생성합니다.\n"
    + "요약: 지난달 사용량/요금 패턴이 안정적이며 출퇴근 시간대 이용이 많습니다.\n"
    + "팁: 정기권 또는 할인 프로모션을 활용하면 평균 요금을 낮출 수 있습니다."

  class MockLLM {
    const modelId: string

    constructor (modelId: string)
      ensures this.modelId == modelId
    {
      this.modelId := modelId;
    }

    /** generate: the prompt is ignored. */
    method Generate(prompt: string) returns (r: string)
      ensures r == MockReply
    {
      r := MockReply;
    }
  }

  /** The reply vLLM's outputs give: "" without outputs or candidates, else the first candidate stripped. */
  function VllmReply(outputs: seq<seq<string>>): (r: string)
    ensures outputs == [] || outputs[0] == [] ==> r == ""
    ensures outputs != [] && outputs[0] != [] ==> r == Strip(outputs[0][0])
  {
    if outputs == [] || outputs[0] == [] then "" else Strip(outputs[0][0])
  }

  /** A vLLM reply never starts or ends with whitespace. */
  lemma VllmReplyIsStripped(outputs: seq<seq<string>>)
    ensures var r := VllmReply(outputs);
            Strip(r) == r && (r != "" ==> !IsSpace(r[0]) && !IsSpace(r[|r| - 1]))
  {
    if outputs != [] && outputs[0] != [] {
      StripIdempotent(outputs[0][0]);
      var t := TrimLeft(outputs[0][0], IsSpace);
      var r := TrimRight(t, IsSpace);
      if r != "" {
        assert r[0] == t[0];
      }
    }
  }

  class VllmService {
    const modelId: string
    /** The loaded vLLM engine with its sampling parameters: prompt to outputs. */
    const engine: string -> seq<seq<string>>

    constructor (modelId: string, engine: string -> seq<seq<string>>)
      ensures this.modelId == modelId && this.engine == engine
    {
      this.modelId := modelId;
      this.engine := engine;
    }

    method Generate(prompt: string) returns (r: string)
      ensures r == VllmReply(engine(prompt))
    {
      var outputs := engine(prompt);
      if outputs == [] || outputs[0] == [] {
        return "";
      }
      r := Strip(outputs[0][0]);
    }
  }

  datatype Backend = Mock(mock: MockLLM) | Vllm(vllm: VllmService)

  /** LLMService: the backend is built lazily, once, and kept for every later call. */
  class LLMService {
    const modelId: string
    const sandboxMode: bool
    const useMockLlm: bool
    /** What VllmService() would load for this model. */
    const engine: string -> seq<seq<string>>
    var backend: Option<Backend>
    /** How many backends this service has built. */
    ghost var built: nat

    /** A backend, once there is one, is of the kind the settings select, and it is the only one built. */
    ghost predicate Valid()
      reads this
    {
      && (backend.None? <==> built == 0)
      && built <= 1
      && (backend.Some? ==> (backend.value.Mock? <==> sandboxMode || useMockLlm))
      && (backend.Some? && backend.value.Vllm? ==> backend.value.vllm.engine == engine)
    }

    constructor (modelId: string, sandboxMode: bool, useMockLlm: bool, engine: string -> seq<seq<string>>)
      ensures Valid()
      ensures this.modelId == modelId && this.sandboxMode == sandboxMode && this.useMockLlm == useMockLlm
      ensures this.engine == engine && backend == None
    {
      this.modelId := modelId;
      this.sandboxMode := sandboxMode;
      this.useMockLlm := useMockLlm;
      this.engine := engine;
      backend := None;
      built := 0;
    }

    /** _ensure_backend: returns the stored backend, building the selected one only when there is none. */
    method EnsureBackend() returns (b: Backend)
      requires Valid()
      modifies this`backend, this`built
      ensures Valid()
      ensures backend == Some(b)
      ensures old(backend).Some? ==> b == old(backend).value && built == old(built)
      ensures old(backend).None? ==> built == old(built) + 1
      ensures old(backend).None? && b.Mock? ==> fresh(b.mock) && b.mock.modelId == modelId
      ensures old(backend).None? && b.Vllm? ==> fresh(b.vllm) && b.vllm.modelId == modelId
    {
      if backend.Some? {
        return backend.value;
      }
      if sandboxMode || useMockLlm {
        var mock := new MockLLM(modelId);
        b := Mock(mock);
      } else {
        var vllm := new VllmService(modelId, engine);
        b := Vllm(vllm);
      }
      backend := Some(b);
      built := built + 1;
    }

    /** generate: delegates to the ensured backend. */
    method Generate(prompt: string) returns (r: string)
      requires Valid()
      modifies this`backend, this`built
      ensures Valid() && backend.Some? && built == 1
      ensures old(backend).Some? ==> backend == old(backend)
      ensures (sandboxMode || useMockLlm) ==> r == MockReply
      ensures !(sandboxMode || useMockLlm) ==> r == VllmReply(engine(prompt))
    {
      var b := EnsureBackend();
      match b
      case Mock(mock) =>
        r := mock.Generate(prompt);
      case Vllm(vllm) =>
        r := vllm.Generate(prompt);
    }
  }
}
