/**
 * The reference data types of the calculator (src/config/aiModelConfig.ts) and the few
 * catalog entries that the worked examples use. The rest of the catalog is data, not logic.
 */
module Catalog {

  /** The capability of a model: which kind of output it produces. */
  datatype ModelType = TextToText | TextToImage | TextToVideo

  /** A category of work with its average token consumption per prompt. */
  datatype UsageArea = UsageArea(
    id: string,
    name: string,
    avgInputTokens: real,
    avgOutputTokens: real,
    icon: string,
    modelTypes: seq<ModelType>)

  /** A model priced per 1000 input and per 1000 output tokens. */
  datatype AIModel = AIModel(
    id: string,
    name: string,
    inputCost: real,
    outputCost: real,
    modelType: ModelType,
    provider: string)

  /** A flat monthly plan. */
  datatype Subscription = Subscription(
    id: string,
    name: string,
    monthlyCost: real,
    provider: string)

  // Catalog entries used by the worked examples.

  const Writing: UsageArea :=
    UsageArea("writing", "Scrittura", 400.0, 1200.0, "PenLine", [TextToText])

  const Programming: UsageArea :=
    UsageArea("programming", "Programmazione", 600.0, 2500.0, "Code", [TextToText])

  const Gpt4o: AIModel :=
    AIModel("gpt4o", "GPT-4o", 0.005, 0.015, TextToText, "OpenAI")

  const Gpt4oMini: AIModel :=
    AIModel("gpt4omini", "GPT-4o-mini", 0.0015, 0.006, TextToText, "OpenAI")

  const ChatGptPlus: Subscription :=
    Subscription("chatgptplus", "ChatGPT Plus", 20.0, "OpenAI")
}
