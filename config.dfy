/** The test matrix constants of the pipeline: platforms, models and test kinds. */
module Config {

  const Platforms: seq<string> := ["x64_vitis", "x64_ov", "arm64_npu"]

  const Models: seq<string> :=
    ["qp", "embeddings_d3", "embeddings_d5", "embeddings_d3_c", "semtext",
     "srd", "llm", "ner", "tcm", "imdesc"]

  const Tests: seq<string> := ["Prediction", "Evaluation"]
}
