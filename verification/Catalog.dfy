/** The constant tables of presets and quotas. */
module Catalog {
  datatype PresetId =
    | PREVIEW_LTX_I2V
    | TURBO_WAN22_I2V_A14B
    | STANDARD_WAN22_TI2V
    | STANDARD_WAN22_TI2V_8S
    | QUALITY_HUNYUAN_I2V

  datatype Workflow = I2V | TI2V

  const PRO_DAILY_FREE_PREMIUM_CREDITS: int := 20
  const REGISTER_BONUS_CREDITS: int := 100
  const MS_PER_DAY: int := 86_400_000

  function CreditCost(p: PresetId): int {
    match p
    case PREVIEW_LTX_I2V => 5
    case TURBO_WAN22_I2V_A14B => 15
    case STANDARD_WAN22_TI2V => 10
    case STANDARD_WAN22_TI2V_8S => 14
    case QUALITY_HUNYUAN_I2V => 20
  }

  function PresetWorkflow(p: PresetId): Workflow {
    match p
    case STANDARD_WAN22_TI2V => TI2V
    case STANDARD_WAN22_TI2V_8S => TI2V
    case _ => I2V
  }

  predicate IsProOnlyPreset(p: PresetId) {
    p.TURBO_WAN22_I2V_A14B? || p.QUALITY_HUNYUAN_I2V?
  }
}
